/**
 * The job dispatcher and its worker pool. Each worker's job queue travels as a token through the bounded pool channel
 * to a handoff goroutine or to the loop that closes the workers at shutdown.
 */
module Dispatcher {
  import opened Wrappers

  type Job = nat

  const JOB_QUEUE_CAPACITY: nat := 100

  /** A goroutine of the dispatch loop: fetching a worker's queue, holding one, or gone. */
  datatype Handoff = Pending(job: Job) | Holding(job: Job, worker: nat) | Gone

  /**
   * A worker: about to offer its queue, receiving on it, at work, hung in a job, or returned. A job hangs when its stream
   * cannot be opened: nobody reads or closes the pipe any more, and the local copy runs in the worker itself.
   */
  datatype Worker = Offering | Receiving | Running(job: Job) | Hung(job: Job) | Exited

  /** Channels, goroutines and workers; `submitted` and `finished` are history. A panic stops the program. */
  datatype State = State(queue: seq<Job>, queueClosed: bool, handoffs: seq<Handoff>, pool: seq<nat>, workers: seq<Worker>,
                         closing: bool, closer: Option<nat>, closed: set<nat>, panicked: bool,
                         submitted: multiset<Job>, finished: multiset<Job>)

  datatype Step =
    | Submit(job: Job)
    | CloseQueue
    | Dispatch
    | BeginClosing
    | Fetch(handoff: nat)
    | Send(handoff: nat)
    | TakeToClose
    | CloseWorker
    | Offer(worker: nat)
    | Exit(worker: nat)
    | Finish(worker: nat)
    | Hang(worker: nat)

  function Initial(maxWorkers: nat): State {
    State([], false, [], [], seq(maxWorkers, i => Offering), false, None, {}, false, multiset{}, multiset{})
  }

  /** Sends to the job queue after its close are excluded; a full channel and a missing receiver block. */
  predicate Enabled(s: State, step: Step) {
    !s.panicked &&
    match step
    case Submit(job) => !s.queueClosed && |s.queue| < JOB_QUEUE_CAPACITY
    case CloseQueue => !s.queueClosed
    case Dispatch => !s.closing && s.queue != []
    case BeginClosing => !s.closing && s.queueClosed && s.queue == []
    case Fetch(i) => i < |s.handoffs| && s.handoffs[i].Pending? && s.pool != []
    case Send(i) => i < |s.handoffs| && s.handoffs[i].Holding? && s.handoffs[i].worker < |s.workers|
                    && (s.handoffs[i].worker in s.closed || s.workers[s.handoffs[i].worker] == Receiving)
    case TakeToClose => s.closing && s.closer == None && s.pool != []
    case CloseWorker => s.closing && s.closer.Some?
    case Offer(w) => w < |s.workers| && s.workers[w] == Offering && |s.pool| < |s.workers|
    case Exit(w) => w < |s.workers| && s.workers[w] == Receiving && w in s.closed
    case Finish(w) => w < |s.workers| && s.workers[w].Running?
    case Hang(w) => w < |s.workers| && s.workers[w].Running?
  }

  function Apply(s: State, step: Step): State
    requires Enabled(s, step)
  {
    match step
    case Submit(job) => s.(queue := s.queue + [job], submitted := s.submitted + multiset{job})
    case CloseQueue => s.(queueClosed := true)
    case Dispatch => s.(queue := s.queue[1..], handoffs := s.handoffs + [Pending(s.queue[0])])
    case BeginClosing => s.(closing := true)
    case Fetch(i) => s.(handoffs := s.handoffs[i := Holding(s.handoffs[i].job, s.pool[0])], pool := s.pool[1..])
    case Send(i) =>
      if s.handoffs[i].worker in s.closed then s.(panicked := true)
      else s.(workers := s.workers[s.handoffs[i].worker := Running(s.handoffs[i].job)], handoffs := s.handoffs[i := Gone])
    case TakeToClose => s.(closer := Some(s.pool[0]), pool := s.pool[1..])
    case CloseWorker =>
      if s.closer.value in s.closed then s.(panicked := true)
      else s.(closed := s.closed + {s.closer.value}, closer := None)
    case Offer(w) => s.(pool := s.pool + [w], workers := s.workers[w := Receiving])
    case Exit(w) => s.(workers := s.workers[w := Exited])
    case Finish(w) => s.(workers := s.workers[w := Offering], finished := s.finished + multiset{s.workers[w].job})
    case Hang(w) => s.(workers := s.workers[w := Hung(s.workers[w].job)])
  }

  predicate Possible(s: State, steps: seq<Step>)
    decreases |steps|
  {
    steps == [] || (Enabled(s, steps[0]) && Possible(Apply(s, steps[0]), steps[1..]))
  }

  function Run(s: State, steps: seq<Step>): State
    requires Possible(s, steps)
    decreases |steps|
  {
    if steps == [] then s else Run(Apply(s, steps[0]), steps[1..])
  }

  // ----- where a worker's queue is -----

  datatype Place = InPool(k: nat) | InHandoff(i: nat) | AtCloser | WithWorker | Closed

  predicate At(s: State, w: nat, place: Place)
    requires w < |s.workers|
  {
    match place
    case InPool(k) => k < |s.pool| && s.pool[k] == w
    case InHandoff(i) => i < |s.handoffs| && s.handoffs[i].Holding? && s.handoffs[i].worker == w
    case AtCloser => s.closer == Some(w)
    case WithWorker => s.workers[w] == Offering || s.workers[w].Running? || s.workers[w].Hung?
    case Closed => w in s.closed
  }

  /** Each worker's queue is in exactly one place. */
  ghost predicate OnePlace(s: State, w: nat)
    requires w < |s.workers|
  {
    && (exists place :: At(s, w, place))
    && forall a, b :: At(s, w, a) && At(s, w, b) ==> a == b
  }

  ghost predicate TokensOk(s: State) {
    && (forall w :: 0 <= w < |s.workers| ==> OnePlace(s, w))
    && (forall k :: 0 <= k < |s.pool| ==> s.pool[k] < |s.workers|)
    && (forall i :: 0 <= i < |s.handoffs| && s.handoffs[i].Holding? ==> s.handoffs[i].worker < |s.workers|)
    && (s.closer.Some? ==> s.closer.value < |s.workers|)
    && (forall w :: 0 <= w < |s.workers| && s.workers[w] == Exited ==> w in s.closed)
    && (s.closing ==> s.queueClosed && s.queue == [])
    && (s.closer.Some? || s.closed != {} ==> s.closing)
  }

  /** The place of worker w's queue after a step, from its place before. */
  function Moved(s: State, step: Step, w: nat, place: Place): Place
    requires Enabled(s, step)
  {
    match step
    case Fetch(i) => if place.InPool? then (if place.k == 0 then InHandoff(i) else InPool(place.k - 1)) else place
    case Send(i) => if place == InHandoff(i) then WithWorker else place
    case TakeToClose => if place.InPool? then (if place.k == 0 then AtCloser else InPool(place.k - 1)) else place
    case CloseWorker => if place == AtCloser then Closed else place
    case Offer(v) => if v == w then InPool(|s.pool|) else place
    case _ => place
  }

  /** The place before a step, from the place after: a step moves every token along one of these paths. */
  function Back(s: State, step: Step, w: nat, place: Place): Place
    requires Enabled(s, step)
  {
    match step
    case Fetch(i) => if place.InPool? then InPool(place.k + 1) else if place == InHandoff(i) then InPool(0) else place
    case Send(i) => if place == WithWorker && w == s.handoffs[i].worker then InHandoff(i) else place
    case TakeToClose => if place.InPool? then InPool(place.k + 1) else if place == AtCloser then InPool(0) else place
    case CloseWorker => if place == Closed && s.closer == Some(w) then AtCloser else place
    case Offer(v) => if place == InPool(|s.pool|) then WithWorker else place
    case _ => place
  }

  lemma HolderIsReady(s: State, i: nat)
    requires TokensOk(s) && i < |s.handoffs| && s.handoffs[i].Holding?
    ensures s.handoffs[i].worker !in s.closed && s.workers[s.handoffs[i].worker] == Receiving
  {
    var w := s.handoffs[i].worker;
    assert At(s, w, InHandoff(i));
    assert OnePlace(s, w);
    assert !At(s, w, Closed) && !At(s, w, WithWorker);
  }

  lemma CloserIsFresh(s: State)
    requires TokensOk(s) && s.closer.Some?
    ensures s.closer.value !in s.closed
  {
    var w := s.closer.value;
    assert At(s, w, AtCloser);
    assert OnePlace(s, w);
    assert !At(s, w, Closed);
  }

  /** The state after a step, place by place: what the step does to the token of worker w. */
  ghost predicate Tracked(s: State, step: Step, w: nat, place: Place)
    requires Enabled(s, step) && w < |s.workers| && |Apply(s, step).workers| == |s.workers|
  {
    && (At(s, w, place) ==> At(Apply(s, step), w, Moved(s, step, w, place)))
    && (At(Apply(s, step), w, place) ==>
          At(s, w, Back(s, step, w, place)) && Moved(s, step, w, Back(s, step, w, place)) == place)
  }

  lemma FetchMoves(s: State, i: nat, w: nat, place: Place)
    requires TokensOk(s) && Enabled(s, Fetch(i)) && w < |s.workers|
    ensures Tracked(s, Fetch(i), w, place)
  {
    if s.pool[0] == w {
      assert At(s, w, InPool(0)) && OnePlace(s, w);
      assert At(s, w, place) ==> place == InPool(0);
    }
  }

  lemma TakeMoves(s: State, w: nat, place: Place)
    requires TokensOk(s) && Enabled(s, TakeToClose) && w < |s.workers|
    ensures Tracked(s, TakeToClose, w, place)
  {
    assert OnePlace(s, w);
    assert s.pool[0] == w ==> At(s, w, InPool(0));
  }

  lemma SendMoves(s: State, i: nat, w: nat, place: Place)
    requires TokensOk(s) && Enabled(s, Send(i)) && w < |s.workers|
    ensures Tracked(s, Send(i), w, place)
  {
    HolderIsReady(s, i);
    assert OnePlace(s, w);
    assert s.handoffs[i].worker == w ==> At(s, w, InHandoff(i));
  }

  lemma CloseMoves(s: State, w: nat, place: Place)
    requires TokensOk(s) && Enabled(s, CloseWorker) && w < |s.workers|
    ensures Tracked(s, CloseWorker, w, place)
  {
    CloserIsFresh(s);
    assert OnePlace(s, w);
    assert s.closer == Some(w) ==> At(s, w, AtCloser);
  }

  lemma OfferMoves(s: State, v: nat, w: nat, place: Place)
    requires TokensOk(s) && Enabled(s, Offer(v)) && w < |s.workers|
    ensures Tracked(s, Offer(v), w, place)
  {
    assert OnePlace(s, w);
    assert v == w ==> At(s, w, WithWorker);
    assert v == w && At(s, w, place) ==> place == WithWorker;
  }

  /** Every token moves along its path, and only along it. */
  lemma TokenMoves(s: State, step: Step, w: nat, place: Place)
    requires TokensOk(s) && Enabled(s, step) && w < |s.workers|
    ensures |Apply(s, step).workers| == |s.workers| && Tracked(s, step, w, place)
  {
    match step
    case Fetch(i) => FetchMoves(s, i, w, place);
    case TakeToClose => TakeMoves(s, w, place);
    case Send(i) => SendMoves(s, i, w, place);
    case CloseWorker => CloseMoves(s, w, place);
    case Offer(v) => OfferMoves(s, v, w, place);
    case _ =>
  }

  lemma StepKeepsPlaces(s: State, step: Step, w: nat)
    requires TokensOk(s) && Enabled(s, step) && w < |s.workers|
    ensures |Apply(s, step).workers| == |s.workers| && OnePlace(Apply(s, step), w)
  {
    var t := Apply(s, step);
    assert OnePlace(s, w);
    var here :| At(s, w, here);
    TokenMoves(s, step, w, here);
    assert At(t, w, Moved(s, step, w, here));
    forall a, b | At(t, w, a) && At(t, w, b) ensures a == b {
      TokenMoves(s, step, w, a);
      TokenMoves(s, step, w, b);
    }
  }

  /** Token uniqueness is kept by every step, shutdown included, and no step panics. */
  lemma StepKeepsTokens(s: State, step: Step)
    requires TokensOk(s) && Enabled(s, step)
    ensures TokensOk(Apply(s, step)) && !Apply(s, step).panicked
  {
    forall w | 0 <= w < |s.workers| ensures OnePlace(Apply(s, step), w) {
      StepKeepsPlaces(s, step, w);
    }
    if step.Send? {
      HolderIsReady(s, step.handoff);
    }
    if step.CloseWorker? {
      CloserIsFresh(s);
    }
  }

  // ----- first come, first served -----

  /** The jobs submitted in a run, in order. */
  function Submitted(steps: seq<Step>): seq<Job> {
    if steps == [] then [] else (if steps[0].Submit? then [steps[0].job] else []) + Submitted(steps[1..])
  }

  /** Of the jobs submitted so far the first have got a handoff each, in that order, and the others wait in that order. */
  predicate InOrder(s: State, jobs: seq<Job>) {
    && |s.handoffs| <= |jobs| && s.queue == jobs[|s.handoffs|..]
    && forall i :: 0 <= i < |s.handoffs| && !s.handoffs[i].Gone? ==> s.handoffs[i].job == jobs[i]
  }

  lemma StepKeepsOrder(s: State, step: Step, jobs: seq<Job>)
    requires InOrder(s, jobs) && Enabled(s, step)
    ensures InOrder(Apply(s, step), jobs + if step.Submit? then [step.job] else [])
  {
    if step.Submit? {
      assert (jobs + [step.job])[|s.handoffs|..] == s.queue + [step.job];
    } else {
      assert jobs + [] == jobs;
    }
  }

  lemma {:induction false} RunKeepsOrder(s: State, steps: seq<Step>, jobs: seq<Job>)
    requires InOrder(s, jobs) && Possible(s, steps)
    ensures InOrder(Run(s, steps), jobs + Submitted(steps))
    decreases |steps|
  {
    if steps == [] {
      assert jobs + [] == jobs;
    } else {
      var now := if steps[0].Submit? then [steps[0].job] else [];
      StepKeepsOrder(s, steps[0], jobs);
      RunKeepsOrder(Apply(s, steps[0]), steps[1..], jobs + now);
      assert jobs + now + Submitted(steps[1..]) == jobs + (now + Submitted(steps[1..]));
    }
  }

  /** In every run the jobs are handed off in the order they were submitted in: handoff i has the i-th of them. */
  lemma FirstComeFirstServed(maxWorkers: nat, steps: seq<Step>)
    requires Possible(Initial(maxWorkers), steps)
    ensures InOrder(Run(Initial(maxWorkers), steps), Submitted(steps))
  {
    RunKeepsOrder(Initial(maxWorkers), steps, []);
    assert [] + Submitted(steps) == Submitted(steps);
  }

  // ----- a worker's push never blocks -----

  /** Distinct numbers below n are at most n. */
  lemma {:induction false} DistinctBound(s: seq<nat>, n: nat)
    requires forall i :: 0 <= i < |s| ==> s[i] < n
    requires forall i, j :: 0 <= i < j < |s| ==> s[i] != s[j]
    ensures |s| <= n
  {
    if s != [] {
      assert s[0] < n;
      if k :| 0 <= k < |s| && s[k] == n - 1 {
        DistinctBound(s[..k] + s[k + 1..], n - 1);
      } else {
        DistinctBound(s[..|s| - 1], n - 1);
      }
    }
  }

  lemma PoolIsDistinct(s: State)
    requires TokensOk(s)
    ensures forall j, k :: 0 <= j < k < |s.pool| ==> s.pool[j] != s.pool[k]
  {
    forall j, k | 0 <= j < k < |s.pool| ensures s.pool[j] != s.pool[k] {
      assert At(s, s.pool[j], InPool(j)) && OnePlace(s, s.pool[j]);
      assert !At(s, s.pool[j], InPool(k));
    }
  }

  /** The pool channel has room whenever a worker offers its queue: a push never blocks. */
  lemma OfferNeverBlocks(s: State, w: nat)
    requires TokensOk(s) && !s.panicked && w < |s.workers| && s.workers[w] == Offering
    ensures Enabled(s, Offer(w))
  {
    assert At(s, w, WithWorker) && OnePlace(s, w);
    PoolIsDistinct(s);
    forall k | 0 <= k < |s.pool| ensures s.pool[k] != w {
      assert !At(s, w, InPool(k));
    }
    DistinctBound(s.pool + [w], |s.workers|);
  }

  // ----- conservation of jobs -----

  function Total<T>(parts: seq<T>, weight: T -> nat): nat {
    if parts == [] then 0 else weight(parts[0]) + Total(parts[1..], weight)
  }

  lemma {:induction false} TotalUpdate<T>(parts: seq<T>, weight: T -> nat, i: nat, x: T)
    requires i < |parts|
    ensures Total(parts[i := x], weight) + weight(parts[i]) == Total(parts, weight) + weight(x)
  {
    if i == 0 {
      assert parts[0 := x][1..] == parts[1..];
    } else {
      assert parts[i := x][1..] == parts[1..][i - 1 := x];
      TotalUpdate(parts[1..], weight, i - 1, x);
    }
  }

  lemma {:induction false} TotalAppend<T>(parts: seq<T>, weight: T -> nat, x: T)
    ensures Total(parts + [x], weight) == Total(parts, weight) + weight(x)
  {
    if parts == [] {
      assert [x][1..] == [];
    } else {
      assert (parts + [x])[1..] == parts[1..] + [x];
      TotalAppend(parts[1..], weight, x);
    }
  }

  lemma {:induction false} TotalZero<T>(parts: seq<T>, weight: T -> nat)
    requires forall i :: 0 <= i < |parts| ==> weight(parts[i]) == 0
    ensures Total(parts, weight) == 0
  {
    if parts != [] {
      TotalZero(parts[1..], weight);
    }
  }

  /** How many copies of a job a handoff or a worker has. */
  function InHandoffs(j: Job): Handoff -> nat {
    (h: Handoff) => if !h.Gone? && h.job == j then 1 else 0
  }

  function InWorkers(j: Job): Worker -> nat {
    (w: Worker) => if w == Running(j) || w == Hung(j) then 1 else 0
  }

  function HungWith(j: Job): Worker -> nat {
    (w: Worker) => if w == Hung(j) then 1 else 0
  }

  /** Copies of a job that were submitted and not finished. */
  function Unfinished(s: State, j: Job): nat {
    multiset(s.queue)[j] + Total(s.handoffs, InHandoffs(j)) + Total(s.workers, InWorkers(j))
  }

  /** Every submitted copy is queued, in one handoff, on one worker, running or hung, or finished. */
  ghost predicate JobsOk(s: State) {
    forall j :: s.submitted[j] == Unfinished(s, j) + s.finished[j]
  }

  lemma SendKeepsJob(s: State, i: nat, j: Job)
    requires TokensOk(s) && s.submitted[j] == Unfinished(s, j) + s.finished[j] && Enabled(s, Send(i))
    ensures var t := Apply(s, Send(i)); t.submitted[j] == Unfinished(t, j) + t.finished[j]
  {
    HolderIsReady(s, i);
    TotalUpdate(s.handoffs, InHandoffs(j), i, Gone);
    TotalUpdate(s.workers, InWorkers(j), s.handoffs[i].worker, Running(s.handoffs[i].job));
  }

  lemma DispatchKeepsJob(s: State, j: Job)
    requires s.submitted[j] == Unfinished(s, j) + s.finished[j] && Enabled(s, Dispatch)
    ensures var t := Apply(s, Dispatch); t.submitted[j] == Unfinished(t, j) + t.finished[j]
  {
    assert s.queue == [s.queue[0]] + s.queue[1..];
    TotalAppend(s.handoffs, InHandoffs(j), Pending(s.queue[0]));
  }

  /** No step loses or duplicates a copy of job j. */
  lemma StepKeepsJob(s: State, step: Step, j: Job)
    requires TokensOk(s) && s.submitted[j] == Unfinished(s, j) + s.finished[j] && Enabled(s, step)
    ensures var t := Apply(s, step); t.submitted[j] == Unfinished(t, j) + t.finished[j]
  {
    match step
    case Dispatch => DispatchKeepsJob(s, j);
    case Fetch(i) => TotalUpdate(s.handoffs, InHandoffs(j), i, Holding(s.handoffs[i].job, s.pool[0]));
    case Send(i) => SendKeepsJob(s, i, j);
    case Offer(w) => TotalUpdate(s.workers, InWorkers(j), w, Receiving);
    case Exit(w) => TotalUpdate(s.workers, InWorkers(j), w, Exited);
    case Finish(w) => TotalUpdate(s.workers, InWorkers(j), w, Offering);
    case Hang(w) => TotalUpdate(s.workers, InWorkers(j), w, Hung(s.workers[w].job));
    case _ =>
  }

  /** What every step keeps. */
  ghost predicate Sound(s: State) {
    TokensOk(s) && JobsOk(s) && !s.panicked
  }

  lemma StepKeeps(s: State, step: Step)
    requires Sound(s) && Enabled(s, step)
    ensures Sound(Apply(s, step)) && |Apply(s, step).workers| == |s.workers|
  {
    StepKeepsTokens(s, step);
    forall j ensures Apply(s, step).submitted[j] == Unfinished(Apply(s, step), j) + Apply(s, step).finished[j] {
      StepKeepsJob(s, step, j);
    }
  }

  // ----- all runs -----

  lemma InitialIsOk(maxWorkers: nat)
    ensures Sound(Initial(maxWorkers))
  {
    var s := Initial(maxWorkers);
    forall w | 0 <= w < |s.workers| ensures OnePlace(s, w) {
      assert At(s, w, WithWorker);
    }
    forall j ensures s.submitted[j] == Unfinished(s, j) + s.finished[j] {
      TotalZero(s.workers, InWorkers(j));
    }
  }

  lemma {:induction false} RunKeeps(s: State, steps: seq<Step>)
    requires Sound(s) && Possible(s, steps)
    ensures Sound(Run(s, steps)) && |Run(s, steps).workers| == |s.workers|
    decreases |steps|
  {
    if steps != [] {
      StepKeeps(s, steps[0]);
      RunKeeps(Apply(s, steps[0]), steps[1..]);
    }
  }

  /**
   * Over every run from the start, with any interleaving of submissions, handoffs, workers and shutdown: each worker's
   * queue is in exactly one place, nothing panics, every job is accounted for, a goroutine that holds a queue can send
   * at once, a worker that offers its queue can push at once, and no more jobs run than there are workers.
   */
  lemma PoolIsSafe(maxWorkers: nat, steps: seq<Step>)
    requires Possible(Initial(maxWorkers), steps)
    ensures var t := Run(Initial(maxWorkers), steps);
            && !t.panicked && JobsOk(t) && |t.workers| == maxWorkers
            && (forall w :: 0 <= w < maxWorkers ==> OnePlace(t, w))
            && (forall i :: 0 <= i < |t.handoffs| && t.handoffs[i].Holding? ==> Enabled(t, Send(i)))
            && (forall w :: 0 <= w < maxWorkers && t.workers[w] == Offering ==> Enabled(t, Offer(w)))
  {
    var s := Initial(maxWorkers);
    InitialIsOk(maxWorkers);
    RunKeeps(s, steps);
    var t := Run(s, steps);
    forall i | 0 <= i < |t.handoffs| && t.handoffs[i].Holding? ensures Enabled(t, Send(i)) {
      HolderIsReady(t, i);
    }
    forall w | 0 <= w < maxWorkers && t.workers[w] == Offering ensures Enabled(t, Offer(w)) {
      OfferNeverBlocks(t, w);
    }
  }

  // ----- where the pool comes to rest -----

  /** The steps the program takes by itself; submissions and the close of the job queue come from outside. */
  predicate Internal(step: Step) {
    !step.Submit? && !step.CloseQueue?
  }

  ghost predicate AtRest(s: State) {
    forall step :: Internal(step) ==> !Enabled(s, step)
  }

  lemma NobodyActive(s: State)
    requires TokensOk(s) && !s.panicked && AtRest(s)
    ensures forall i :: 0 <= i < |s.handoffs| ==> !s.handoffs[i].Holding?
    ensures forall w :: 0 <= w < |s.workers| ==> s.workers[w] in {Receiving, Exited} || s.workers[w].Hung?
    ensures forall w :: 0 <= w < |s.workers| && w in s.closed ==> s.workers[w] == Exited
    ensures s.closer == None
    ensures s.queue == [] && (s.queueClosed ==> s.closing && s.pool == [])
  {
    forall i | 0 <= i < |s.handoffs| ensures !s.handoffs[i].Holding? {
      if s.handoffs[i].Holding? {
        HolderIsReady(s, i);
        assert Enabled(s, Send(i));
      }
    }
    forall w | 0 <= w < |s.workers| ensures s.workers[w] in {Receiving, Exited} || s.workers[w].Hung? {
      assert !Enabled(s, Finish(w)) && !Enabled(s, Offer(w));
      if s.workers[w] == Offering {
        OfferNeverBlocks(s, w);
      }
    }
    forall w | 0 <= w < |s.workers| && w in s.closed ensures s.workers[w] == Exited {
      ClosedIsReceiving(s, w);
      assert !Enabled(s, Exit(w));
    }
    assert !Enabled(s, CloseWorker) && !Enabled(s, Dispatch) && !Enabled(s, BeginClosing) && !Enabled(s, TakeToClose);
  }

  /** A worker whose queue is closed is not at work. */
  lemma ClosedIsReceiving(s: State, w: nat)
    requires TokensOk(s) && w < |s.workers| && w in s.closed
    ensures s.workers[w] in {Receiving, Exited}
  {
    assert At(s, w, Closed) && OnePlace(s, w);
    assert !At(s, w, WithWorker);
  }

  /** A worker that still takes jobs keeps, at rest and before a shutdown, its queue in the pool. */
  lemma FreeIsInPool(s: State, w: nat)
    requires TokensOk(s) && !s.panicked && AtRest(s) && !s.queueClosed && w < |s.workers| && !s.workers[w].Hung?
    ensures s.pool != []
  {
    NobodyActive(s);
    assert OnePlace(s, w);
    var place :| At(s, w, place);
    assert place.InPool?;
  }

  ghost predicate AllHung(s: State) {
    forall w :: 0 <= w < |s.workers| ==> s.workers[w].Hung?
  }

  predicate NothingWaits(s: State) {
    forall i :: 0 <= i < |s.handoffs| ==> s.handoffs[i] == Gone
  }

  lemma {:induction false} SameTotal<T>(parts: seq<T>, f: T -> nat, g: T -> nat)
    requires forall i :: 0 <= i < |parts| ==> f(parts[i]) == g(parts[i])
    ensures Total(parts, f) == Total(parts, g)
  {
    if parts != [] {
      SameTotal(parts[1..], f, g);
    }
  }

  lemma {:induction false} TotalHas<T>(parts: seq<T>, weight: T -> nat, i: nat)
    requires i < |parts|
    ensures weight(parts[i]) <= Total(parts, weight)
  {
    if i > 0 {
      TotalHas(parts[1..], weight, i - 1);
    }
  }

  /** Every copy of a job that is not finished hangs, or waits in a handoff. */
  lemma AtRestJobs(s: State, j: Job)
    requires Sound(s) && AtRest(s)
    ensures s.submitted[j] == s.finished[j] + Total(s.workers, HungWith(j)) + Total(s.handoffs, InHandoffs(j))
  {
    NobodyActive(s);
    SameTotal(s.workers, InWorkers(j), HungWith(j));
  }

  /** Every submitted job has run to its end, or hangs in a worker. */
  ghost predicate AllRanOrHang(s: State) {
    forall j :: s.submitted[j] == s.finished[j] + Total(s.workers, HungWith(j))
  }

  /**
   * Where the pool comes to rest before a shutdown, exactly: every submitted job has run or hangs, if and only if some
   * worker does not hang, or no job waits.
   */
  lemma RestExact(s: State)
    requires Sound(s) && AtRest(s) && !s.queueClosed
    ensures AllRanOrHang(s) <==> !AllHung(s) || NothingWaits(s)
  {
    if !AllHung(s) {
      var w :| 0 <= w < |s.workers| && !s.workers[w].Hung?;
      FreeIsInPool(s, w);
      forall i | 0 <= i < |s.handoffs| ensures s.handoffs[i] == Gone {
        NobodyActive(s);
        assert !Enabled(s, Fetch(i));
      }
    }
    if NothingWaits(s) {
      forall j ensures s.submitted[j] == s.finished[j] + Total(s.workers, HungWith(j)) {
        AtRestJobs(s, j);
        TotalZero(s.handoffs, InHandoffs(j));
      }
    } else {
      SomebodyWaits(s);
    }
  }

  lemma SomebodyWaits(s: State)
    requires Sound(s) && AtRest(s) && !NothingWaits(s)
    ensures !AllRanOrHang(s)
  {
    var i :| 0 <= i < |s.handoffs| && s.handoffs[i] != Gone;
    var j := s.handoffs[i].job;
    AtRestJobs(s, j);
    TotalHas(s.handoffs, InHandoffs(j), i);
    assert s.submitted[j] != s.finished[j] + Total(s.workers, HungWith(j));
  }

  lemma WaitsUnfinished(s: State)
    requires Sound(s) && AtRest(s) && !NothingWaits(s)
    ensures s.finished != s.submitted
  {
    var i :| 0 <= i < |s.handoffs| && s.handoffs[i] != Gone;
    AtRestJobs(s, s.handoffs[i].job);
    TotalHas(s.handoffs, InHandoffs(s.handoffs[i].job), i);
  }

  /** And every submitted job has run to its end, if and only if moreover no worker hangs. */
  lemma RestMeansDone(s: State)
    requires Sound(s) && AtRest(s) && !s.queueClosed
    ensures s.finished == s.submitted <==>
            (forall w :: 0 <= w < |s.workers| ==> !s.workers[w].Hung?) && (s.workers != [] || NothingWaits(s))
  {
    if s.finished == s.submitted {
      forall w | 0 <= w < |s.workers| ensures !s.workers[w].Hung? {
        if s.workers[w].Hung? {
          AtRestJobs(s, s.workers[w].job);
          TotalHas(s.workers, HungWith(s.workers[w].job), w);
        }
      }
      if !NothingWaits(s) {
        WaitsUnfinished(s);
      }
    } else if forall w :: 0 <= w < |s.workers| ==> !s.workers[w].Hung? {
      NotDone(s);
    }
  }

  lemma NotDone(s: State)
    requires Sound(s) && AtRest(s) && !s.queueClosed && s.finished != s.submitted
    requires forall w :: 0 <= w < |s.workers| ==> !s.workers[w].Hung?
    ensures s.workers == [] && !NothingWaits(s)
  {
    if s.workers != [] || NothingWaits(s) {
      assert s.workers != [] ==> !s.workers[0].Hung?;
      RestExact(s);
      forall j ensures s.submitted[j] == s.finished[j] {
        TotalZero(s.workers, HungWith(j));
      }
    }
  }

  /**
   * At rest after a shutdown, every worker has returned or hangs, and the jobs that have not run to their end hang or are
   * still in a handoff.
   */
  lemma RestAfterShutdown(s: State)
    requires Sound(s) && AtRest(s) && s.queueClosed
    ensures forall w :: 0 <= w < |s.workers| ==> s.workers[w] == Exited || s.workers[w].Hung?
    ensures forall i :: 0 <= i < |s.handoffs| ==> !s.handoffs[i].Holding?
    ensures forall j :: s.submitted[j] == s.finished[j] + Total(s.workers, HungWith(j)) + Total(s.handoffs, InHandoffs(j))
  {
    NobodyActive(s);
    forall w | 0 <= w < |s.workers| ensures s.workers[w] == Exited || s.workers[w].Hung? {
      assert OnePlace(s, w);
      var place :| At(s, w, place);
      assert place == Closed || place == WithWorker;
    }
    forall j ensures s.submitted[j] == s.finished[j] + Total(s.workers, HungWith(j)) + Total(s.handoffs, InHandoffs(j)) {
      AtRestJobs(s, j);
    }
  }

  // ----- hung workers -----

  /** A worker that hangs does so in every run. */
  lemma StepStaysHung(s: State, step: Step, w: nat)
    requires TokensOk(s) && Enabled(s, step) && w < |s.workers| && s.workers[w].Hung?
    ensures w < |Apply(s, step).workers| && Apply(s, step).workers[w] == s.workers[w]
  {
    if step.Send? {
      HolderIsReady(s, step.handoff);
    }
  }

  lemma {:induction false} HungIsForever(s: State, steps: seq<Step>, w: nat)
    requires TokensOk(s) && Possible(s, steps) && w < |s.workers| && s.workers[w].Hung?
    ensures w < |Run(s, steps).workers| && Run(s, steps).workers[w] == s.workers[w]
    decreases |steps|
  {
    if steps != [] {
      StepStaysHung(s, steps[0], w);
      StepKeepsTokens(s, steps[0]);
      HungIsForever(Apply(s, steps[0]), steps[1..], w);
    }
  }

  /** When all workers hang, no queue is anywhere to be had. */
  lemma AllHungHoldAll(s: State)
    requires TokensOk(s) && AllHung(s)
    ensures s.pool == [] && s.closer == None && forall i :: 0 <= i < |s.handoffs| ==> !s.handoffs[i].Holding?
  {
    if s.pool != [] {
      HungHolds(s, s.pool[0], InPool(0));
    }
    if s.closer.Some? {
      HungHolds(s, s.closer.value, AtCloser);
    }
    forall i | 0 <= i < |s.handoffs| ensures !s.handoffs[i].Holding? {
      if s.handoffs[i].Holding? {
        HungHolds(s, s.handoffs[i].worker, InHandoff(i));
      }
    }
  }

  lemma HungHolds(s: State, w: nat, place: Place)
    requires TokensOk(s) && w < |s.workers| && s.workers[w].Hung? && At(s, w, place)
    ensures place == WithWorker
  {
    assert OnePlace(s, w) && At(s, w, WithWorker);
  }

  /** Once all workers hang, no job starts or finishes in any later run, whatever is submitted. */
  lemma {:induction false} NothingRunsAnyMore(s: State, steps: seq<Step>)
    requires TokensOk(s) && Possible(s, steps) && AllHung(s)
    ensures Run(s, steps).workers == s.workers && Run(s, steps).finished == s.finished
    decreases |steps|
  {
    if steps != [] {
      AllHungHoldAll(s);
      StepKeepsTokens(s, steps[0]);
      NothingRunsAnyMore(Apply(s, steps[0]), steps[1..]);
    }
  }

  /** A pool of n workers, the first k of which hang in copies of one job; nothing else is under way. */
  ghost predicate HungUpTo(s: State, n: nat, k: nat, job: Job) {
    && k <= n == |s.workers| && !s.panicked && !s.queueClosed && !s.closing && s.closer == None && s.closed == {}
    && s.queue == [] && s.pool == [] && |s.handoffs| == k
    && (forall w :: 0 <= w < k ==> s.workers[w] == Hung(job) && s.handoffs[w] == Gone)
    && (forall w :: k <= w < n ==> s.workers[w] == Offering)
  }

  /** One more copy of the job, up to the point where its worker hangs. */
  function OneOffered(k: nat, job: Job): seq<Step> {
    [Submit(job)] + ([Dispatch] + [Offer(k)])
  }

  function OneHangs(k: nat): seq<Step> {
    [Fetch(k)] + ([Send(k)] + [Hang(k)])
  }

  /** The copy waits in a handoff, and worker k has offered its queue. */
  ghost predicate OneWaits(s: State, n: nat, k: nat, job: Job) {
    && k < n == |s.workers| && !s.panicked && !s.queueClosed && !s.closing && s.closer == None && s.closed == {}
    && s.queue == [] && s.pool == [k] && |s.handoffs| == k + 1 && s.handoffs[k] == Pending(job) && s.workers[k] == Receiving
    && (forall w :: 0 <= w < k ==> s.workers[w] == Hung(job) && s.handoffs[w] == Gone)
    && (forall w :: k < w < n ==> s.workers[w] == Offering)
  }

  lemma OneStep(s: State, step: Step)
    requires Enabled(s, step)
    ensures Possible(s, [step]) && Run(s, [step]) == Apply(s, step)
  {
    assert [step][1..] == [];
  }

  lemma OfferOne(s: State, n: nat, k: nat, job: Job)
    requires HungUpTo(s, n, k, job) && k < n
    ensures Possible(s, OneOffered(k, job)) && OneWaits(Run(s, OneOffered(k, job)), n, k, job)
  {
    var s1 := Apply(s, Submit(job));
    var s2 := Apply(s1, Dispatch);
    OneStep(s2, Offer(k));
    Chain(s1, Dispatch, [Offer(k)]);
    Chain(s, Submit(job), [Dispatch] + [Offer(k)]);
  }

  lemma HangOne(s: State, n: nat, k: nat, job: Job)
    requires OneWaits(s, n, k, job)
    ensures Possible(s, OneHangs(k)) && HungUpTo(Run(s, OneHangs(k)), n, k + 1, job)
  {
    var s1 := Apply(s, Fetch(k));
    var s2 := Apply(s1, Send(k));
    OneStep(s2, Hang(k));
    Chain(s1, Send(k), [Hang(k)]);
    Chain(s, Fetch(k), [Send(k)] + [Hang(k)]);
  }

  lemma Chain(s: State, step: Step, rest: seq<Step>)
    requires Enabled(s, step) && Possible(Apply(s, step), rest)
    ensures Possible(s, [step] + rest) && Run(s, [step] + rest) == Run(Apply(s, step), rest)
  {
    assert ([step] + rest)[1..] == rest;
  }

  lemma {:induction false} RunSplit(s: State, a: seq<Step>, b: seq<Step>)
    requires Possible(s, a) && Possible(Run(s, a), b)
    ensures Possible(s, a + b) && Run(s, a + b) == Run(Run(s, a), b)
    decreases |a|
  {
    if a == [] {
      assert a + b == b;
    } else {
      assert (a + b)[1..] == a[1..] + b;
      RunSplit(Apply(s, a[0]), a[1..], b);
    }
  }

  lemma {:induction false} HangAll(s: State, n: nat, k: nat, job: Job) returns (steps: seq<Step>)
    requires HungUpTo(s, n, k, job)
    ensures Possible(s, steps) && HungUpTo(Run(s, steps), n, n, job)
    decreases n - k
  {
    if k == n {
      steps := [];
    } else {
      OfferOne(s, n, k, job);
      var t := Run(s, OneOffered(k, job));
      HangOne(t, n, k, job);
      var rest := HangAll(Run(t, OneHangs(k)), n, k + 1, job);
      RunSplit(t, OneHangs(k), rest);
      RunSplit(s, OneOffered(k, job), OneHangs(k) + rest);
      steps := OneOffered(k, job) + (OneHangs(k) + rest);
    }
  }

  /** As many failed streams as there are workers bring every pool to rest with a job that waits and will never run. */
  lemma PoolCanStarve(n: nat, job: Job) returns (steps: seq<Step>)
    ensures Possible(Initial(n), steps)
    ensures var t := Run(Initial(n), steps);
            AtRest(t) && !t.queueClosed && AllHung(t) && |t.workers| == n && |t.handoffs| == n + 1 && t.handoffs[n] == Pending(job)
  {
    var first := HangAll(Initial(n), n, 0, job);
    var last := [Submit(job)] + [Dispatch];
    OneTooMany(Run(Initial(n), first), n, job);
    RunSplit(Initial(n), first, last);
    steps := first + last;
  }

  lemma OneTooMany(s: State, n: nat, job: Job)
    requires HungUpTo(s, n, n, job)
    ensures Possible(s, [Submit(job)] + [Dispatch])
    ensures var t := Run(s, [Submit(job)] + [Dispatch]);
            AtRest(t) && !t.queueClosed && AllHung(t) && |t.workers| == n && |t.handoffs| == n + 1 && t.handoffs[n] == Pending(job)
  {
    Chain(s, Submit(job), [Dispatch]);
    var u := Apply(s, Submit(job));
    assert Possible(u, [Dispatch]) && Run(u, [Dispatch]) == Apply(u, Dispatch);
  }

  // ----- and that it does -----

  function HandoffWork(h: Handoff): nat {
    match h
    case Pending(_) => 8
    case Holding(_, _) => 9
    case Gone => 0
  }

  function WorkerWork(w: Worker): nat {
    match w
    case Offering => 5
    case Receiving => 1
    case Running(_) => 7
    case Hung(_) => 0
    case Exited => 0
  }

  /** The work the pool still has to do by itself. */
  function Work(s: State): nat {
    9 * |s.queue| + Total(s.handoffs, HandoffWork) + Total(s.workers, WorkerWork) + 3 * |s.pool|
    + (if s.closer.Some? then 2 else 0) + (if s.closing then 0 else 1)
  }

  /** Every internal step leaves less work, so without new submissions every run comes to rest. */
  lemma InternalStepsEnd(s: State, step: Step)
    requires TokensOk(s) && Enabled(s, step) && Internal(step)
    ensures Work(Apply(s, step)) < Work(s)
  {
    match step
    case Dispatch => TotalAppend(s.handoffs, HandoffWork, Pending(s.queue[0]));
    case Fetch(i) => TotalUpdate(s.handoffs, HandoffWork, i, Holding(s.handoffs[i].job, s.pool[0]));
    case Send(i) =>
      HolderIsReady(s, i);
      TotalUpdate(s.handoffs, HandoffWork, i, Gone);
      TotalUpdate(s.workers, WorkerWork, s.handoffs[i].worker, Running(s.handoffs[i].job));
    case CloseWorker => CloserIsFresh(s);
    case Offer(w) => TotalUpdate(s.workers, WorkerWork, w, Receiving);
    case Exit(w) => TotalUpdate(s.workers, WorkerWork, w, Exited);
    case Finish(w) => TotalUpdate(s.workers, WorkerWork, w, Offering);
    case Hang(w) => TotalUpdate(s.workers, WorkerWork, w, Hung(s.workers[w].job));
    case _ =>
  }

  /** A run of internal steps is no longer than the work there was. */
  lemma {:induction false} InternalRunsAreBounded(s: State, steps: seq<Step>)
    requires TokensOk(s) && Possible(s, steps) && forall k :: 0 <= k < |steps| ==> Internal(steps[k])
    ensures |steps| <= Work(s)
    decreases |steps|
  {
    if steps != [] {
      InternalStepsEnd(s, steps[0]);
      StepKeepsTokens(s, steps[0]);
      InternalRunsAreBounded(Apply(s, steps[0]), steps[1..]);
    }
  }

  // ----- the dispatcher object -----

  /** The dispatcher with its channels and workers; every method is one atomic piece of a goroutine. */
  class JobDispatcher {
    var jobQueue: seq<Job>
    var jobQueueClosed: bool
    var workerPool: seq<nat>
    var handoffs: seq<Handoff>
    var workers: seq<Worker>
    var closing: bool
    var closer: Option<nat>
    var closed: set<nat>
    ghost var submitted: multiset<Job>
    ghost var finished: multiset<Job>

    ghost function View(): State
      reads this
    {
      State(jobQueue, jobQueueClosed, handoffs, workerPool, workers, closing, closer, closed, false, submitted, finished)
    }

    ghost predicate Valid()
      reads this
    {
      Sound(View())
    }

    /** NewDispatcher and run: all workers started, none has offered its queue yet. */
    constructor (maxWorkers: nat)
      ensures Valid() && View() == Initial(maxWorkers)
    {
      jobQueue, jobQueueClosed, workerPool, handoffs := [], false, [], [];
      workers := seq(maxWorkers, i => Offering);
      closing, closer, closed := false, None, {};
      submitted, finished := multiset{}, multiset{};
      new;
      InitialIsOk(maxWorkers);
    }

    method SubmitJob(job: Job)
      requires Valid() && Enabled(View(), Submit(job))
      modifies this
      ensures Valid() && View() == Apply(old(View()), Submit(job))
    {
      StepKeeps(View(), Submit(job));
      jobQueue := jobQueue + [job];
      submitted := submitted + multiset{job};
    }

    /** One turn of the dispatch loop: receive a job and start a handoff goroutine for it. */
    method DispatchJob()
      requires Valid() && Enabled(View(), Dispatch)
      modifies this
      ensures Valid() && View() == Apply(old(View()), Dispatch)
    {
      StepKeeps(View(), Dispatch);
      var job := jobQueue[0];
      jobQueue := jobQueue[1..];
      handoffs := handoffs + [Pending(job)];
    }

    /** The job queue is closed and empty: the loop ends and the closing loop begins. */
    method LeaveDispatchLoop()
      requires Valid() && Enabled(View(), BeginClosing)
      modifies this
      ensures Valid() && View() == Apply(old(View()), BeginClosing)
    {
      StepKeeps(View(), BeginClosing);
      closing := true;
    }

    /** A handoff goroutine receives a worker's queue from the pool. */
    method FetchQueue(i: nat)
      requires Valid() && Enabled(View(), Fetch(i))
      modifies this
      ensures Valid() && View() == Apply(old(View()), Fetch(i))
    {
      StepKeeps(View(), Fetch(i));
      handoffs := handoffs[i := Holding(handoffs[i].job, workerPool[0])];
      workerPool := workerPool[1..];
    }

    /** It sends its job on that queue; the worker is there to receive it and the queue is open. */
    method SendJob(i: nat)
      requires Valid() && i < |handoffs| && handoffs[i].Holding?
      modifies this
      ensures Valid() && Enabled(old(View()), Send(i)) && View() == Apply(old(View()), Send(i))
    {
      HolderIsReady(View(), i);
      StepKeeps(View(), Send(i));
      workers := workers[handoffs[i].worker := Running(handoffs[i].job)];
      handoffs := handoffs[i := Gone];
    }

    /** One turn of the closing loop: take a queue from the pool, then close it. */
    method CloseTurn()
      requires Valid() && Enabled(View(), TakeToClose)
      modifies this
      ensures Valid() && Enabled(Apply(old(View()), TakeToClose), CloseWorker)
      ensures View() == Apply(Apply(old(View()), TakeToClose), CloseWorker)
    {
      StepKeeps(View(), TakeToClose);
      closer := Some(workerPool[0]);
      workerPool := workerPool[1..];
      CloserIsFresh(View());
      StepKeeps(View(), CloseWorker);
      closed := closed + {closer.value};
      closer := None;
    }

    /** The head of a worker's loop: push its own queue to the pool, which never blocks. */
    method OfferQueue(w: nat)
      requires Valid() && w < |workers| && workers[w] == Offering
      modifies this
      ensures Valid() && Enabled(old(View()), Offer(w)) && View() == Apply(old(View()), Offer(w))
    {
      OfferNeverBlocks(View(), w);
      StepKeeps(View(), Offer(w));
      workerPool := workerPool + [w];
      workers := workers[w := Receiving];
    }

    /** The worker's job is over and its loop turns. */
    method FinishJob(w: nat)
      requires Valid() && Enabled(View(), Finish(w))
      modifies `workers, `finished
      ensures Valid() && View() == Apply(old(View()), Finish(w))
    {
      var job := workers[w].job;
      ghost var next := Apply(View(), Finish(w));
      assert next == View().(workers := workers[w := Offering], finished := finished + multiset{job});
      StepKeeps(View(), Finish(w));
      workers := workers[w := Offering];
      finished := finished + multiset{job};
      assert View() == next;
    }

    /** The worker's job never comes back: its local copy writes to a pipe that nobody reads. */
    method HangJob(w: nat)
      requires Valid() && Enabled(View(), Hang(w))
      modifies `workers
      ensures Valid() && View() == Apply(old(View()), Hang(w)) && workers[w] == Hung(old(workers[w].job))
    {
      ghost var next := Apply(View(), Hang(w));
      StepKeeps(View(), Hang(w));
      workers := workers[w := Hung(workers[w].job)];
      assert View() == next;
    }

    /** The worker's queue was closed: it returns. */
    method ExitWorker(w: nat)
      requires Valid() && Enabled(View(), Exit(w))
      modifies this
      ensures Valid() && View() == Apply(old(View()), Exit(w))
    {
      StepKeeps(View(), Exit(w));
      workers := workers[w := Exited];
    }
  }
}
