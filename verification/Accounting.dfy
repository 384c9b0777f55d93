/**
 * The counters of a server connection while any number of attempts run at once: started by pool workers, counted by their
 * summary goroutines, each event under the connection's lock, in any order.
 */
module Accounting {
  import opened Wrappers

  /** A job records its file as complete, an attempt starts a transfer, or a summary goroutine counts a block of an attempt. */
  datatype Event = Complete(file: nat, size: nat) | Start(file: nat, offset: nat) | Count(attempt: nat, last: nat)

  /** bytesTransferred and fileTransferStatus, keyed by the File object. */
  datatype Account = Account(bytes: nat, status: map<nat, nat>)

  /** An attempt is named by the number of its start; its blocks are counted after that. */
  ghost predicate Ordered(events: seq<Event>) {
    forall k :: 0 <= k < |events| && events[k].Count? ==> Started(events[..k], events[k].attempt)
  }

  predicate Started(events: seq<Event>, i: nat) {
    i < |events| && events[i].Start?
  }

  /** The file an event is about. */
  function FileOf(events: seq<Event>, event: Event): nat
    requires event.Count? ==> Started(events, event.attempt)
  {
    if event.Count? then events[event.attempt].file else event.file
  }

  /** One event; an absent entry of the status map counts as 0. */
  function Apply(x: Account, event: Event, file: nat): Account {
    match event
    case Complete(_, size) => x.(status := x.status[file := size])
    case Start(_, offset) => x.(status := x.status[file := offset])
    case Count(_, last) =>
      Account(x.bytes + last, x.status[file := (if file in x.status then x.status[file] else 0) + last])
  }

  lemma OrderedInit(events: seq<Event>)
    requires Ordered(events) && events != []
    ensures var (init, last) := (events[..|events| - 1], events[|events| - 1]);
            Ordered(init) && events == init + [last] && (last.Count? ==> Started(init, last.attempt))
  {
    var init := events[..|events| - 1];
    forall k | 0 <= k < |init| && init[k].Count? ensures Started(init[..k], init[k].attempt) {
      assert init[..k] == events[..k];
    }
  }

  ghost function Run(events: seq<Event>): Account
    requires Ordered(events)
    decreases |events|
  {
    if events == [] then Account(0, map[])
    else
      var (init, last) := (events[..|events| - 1], events[|events| - 1]);
      assert Ordered(init) && (last.Count? ==> Started(init, last.attempt)) by { OrderedInit(events); }
      Apply(Run(init), last, FileOf(init, last))
  }

  /** One more event. */
  lemma RunMore(events: seq<Event>, event: Event)
    requires Ordered(events) && (event.Count? ==> Started(events, event.attempt))
    ensures Ordered(events + [event]) && Run(events + [event]) == Apply(Run(events), event, FileOf(events, event))
  {
    var all := events + [event];
    assert all[..|all| - 1] == events;
    forall k | 0 <= k < |all| && all[k].Count? ensures Started(all[..k], all[k].attempt) {
      assert all[..k] == events[..k];
    }
  }

  // ----- all bytes -----

  /** The bytes counted for attempt i. */
  function CountedBy(events: seq<Event>, i: nat): nat {
    if events == [] then 0
    else
      var last := events[|events| - 1];
      CountedBy(events[..|events| - 1], i) + if last.Count? && last.attempt == i then last.last else 0
  }

  /** Their sum over the first n attempts. */
  function Sum(events: seq<Event>, n: nat): nat {
    if n == 0 then 0 else Sum(events, n - 1) + CountedBy(events, n - 1)
  }

  lemma {:induction false} SumMore(events: seq<Event>, n: nat)
    requires events != []
    ensures var last := events[|events| - 1];
            Sum(events, n) == Sum(events[..|events| - 1], n) + if last.Count? && last.attempt < n then last.last else 0
  {
    if n > 0 {
      SumMore(events, n - 1);
    }
  }

  lemma {:induction false} NotCountedBefore(events: seq<Event>, i: nat)
    requires Ordered(events) && |events| <= i + 1
    ensures CountedBy(events, i) == 0
    decreases |events|
  {
    if events != [] {
      OrderedInit(events);
      NotCountedBefore(events[..|events| - 1], i);
    }
  }

  /** In every interleaving, bytesTransferred is the sum over all attempts, of all files, of the bytes counted for them. */
  lemma {:induction false} BytesAreTheSum(events: seq<Event>)
    requires Ordered(events)
    ensures Run(events).bytes == Sum(events, |events|)
    decreases |events|
  {
    if events != [] {
      OrderedInit(events);
      var init := events[..|events| - 1];
      BytesAreTheSum(init);
      SumMore(events, |events| - 1);
      NotCountedBefore(events, |events| - 1);
    }
  }

  // ----- the status of a file -----

  predicate Sets(event: Event, f: nat) {
    (event.Complete? || event.Start?) && event.file == f
  }

  /** The last event that set the status of f. */
  function LastSet(events: seq<Event>, f: nat): Option<nat> {
    if events == [] then None
    else if Sets(events[|events| - 1], f) then Some(|events| - 1)
    else LastSet(events[..|events| - 1], f)
  }

  /** What it set it to. */
  function SetTo(event: Event): nat {
    match event
    case Complete(_, size) => size
    case Start(_, offset) => offset
    case Count(_, _) => 0
  }

  /** The bytes counted for f behind event k, by attempts that `who` selects. */
  ghost function Since(events: seq<Event>, f: nat, k: nat, who: nat -> bool): nat
    requires Ordered(events)
    decreases |events|
  {
    if |events| <= k + 1 then 0
    else
      var (init, last) := (events[..|events| - 1], events[|events| - 1]);
      assert Ordered(init) && (last.Count? ==> Started(init, last.attempt)) by { OrderedInit(events); }
      Since(init, f, k, who) + if last.Count? && FileOf(init, last) == f && who(last.attempt) then last.last else 0
  }

  const EVERYONE: nat -> bool := i => true

  function Only(i: nat): nat -> bool {
    j => j == i
  }

  function Others(i: nat): nat -> bool {
    j => j != i
  }

  lemma {:induction false} LastSetIsIndex(events: seq<Event>, f: nat)
    ensures LastSet(events, f).Some? ==> LastSet(events, f).value < |events| && Sets(events[LastSet(events, f).value], f)
  {
    if events != [] && !Sets(events[|events| - 1], f) {
      LastSetIsIndex(events[..|events| - 1], f);
    }
  }

  lemma {:induction false} StartedIsSet(events: seq<Event>, i: nat)
    requires Started(events, i)
    ensures LastSet(events, events[i].file).Some? && LastSet(events, events[i].file).value >= i
  {
    if i < |events| - 1 {
      StartedIsSet(events[..|events| - 1], i);
    }
  }

  /**
   * In every interleaving, the status of a file is what the last start or completion on it set, plus every byte counted
   * for the file since, by whichever attempt.
   */
  lemma {:induction false} StatusExact(events: seq<Event>, f: nat)
    requires Ordered(events)
    ensures f in Run(events).status <==> LastSet(events, f).Some?
    ensures var k := LastSet(events, f);
            k.Some? ==> k.value < |events| && f in Run(events).status
                        && Run(events).status[f] == SetTo(events[k.value]) + Since(events, f, k.value, EVERYONE)
    decreases |events|
  {
    if events != [] {
      OrderedInit(events);
      var (init, last) := (events[..|events| - 1], events[|events| - 1]);
      StatusExact(init, f);
      LastSetIsIndex(init, f);
      if last.Count? {
        StartedIsSet(init, last.attempt);
      }
    }
  }

  /** Where attempt i stands by its own count. */
  function OwnOffset(events: seq<Event>, i: nat): nat
    requires Started(events, i)
  {
    events[i].offset + CountedBy(events, i)
  }

  lemma {:induction false} SinceParts(events: seq<Event>, f: nat, k: nat, i: nat)
    requires Ordered(events)
    ensures Since(events, f, k, EVERYONE) == Since(events, f, k, Only(i)) + Since(events, f, k, Others(i))
    decreases |events|
  {
    if |events| > k + 1 {
      OrderedInit(events);
      SinceParts(events[..|events| - 1], f, k, i);
    }
  }

  lemma {:induction false} OwnParts(events: seq<Event>, k: nat, i: nat)
    requires Ordered(events) && k < |events| && Started(events, i) && i <= k
    ensures CountedBy(events, i) == CountedBy(events[..k + 1], i) + Since(events, events[i].file, k, Only(i))
    decreases |events|
  {
    if |events| == k + 1 {
      assert events[..k + 1] == events;
    } else {
      OrderedInit(events);
      var init := events[..|events| - 1];
      OwnParts(init, k, i);
      assert init[..k + 1] == events[..k + 1];
    }
  }

  /** A started file has a last set, at the start or after it. */
  lemma LastSetOf(events: seq<Event>, i: nat) returns (k: nat)
    requires Ordered(events) && Started(events, i)
    ensures LastSet(events, events[i].file) == Some(k) && i <= k < |events| && events[i].file in Run(events).status
    ensures Run(events).status[events[i].file] == SetTo(events[k]) + Since(events, events[i].file, k, EVERYONE)
  {
    StartedIsSet(events, i);
    LastSetIsIndex(events, events[i].file);
    StatusExact(events, events[i].file);
    k := LastSet(events, events[i].file).value;
  }

  /**
   * The status of a file is an attempt's own offset, exactly: if and only if what the last start or completion on the file
   * set, together with what other attempts of the file have counted since, is where the attempt stood at that moment.
   */
  lemma OwnStatusExact(events: seq<Event>, i: nat, k: nat)
    requires Ordered(events) && Started(events, i) && LastSet(events, events[i].file) == Some(k)
    ensures i <= k < |events| && events[i].file in Run(events).status
    ensures Run(events).status[events[i].file] == OwnOffset(events, i) <==>
            SetTo(events[k]) + Since(events, events[i].file, k, Others(i)) == OwnOffset(events[..k + 1], i)
  {
    var j := LastSetOf(events, i);
    SinceParts(events, events[i].file, k, i);
    OwnParts(events, k, i);
  }

  /** For the attempt that set it last: if and only if no other attempt of the file has counted bytes since. */
  lemma LatestStatusExact(events: seq<Event>, i: nat)
    requires Ordered(events) && Started(events, i) && LastSet(events, events[i].file) == Some(i)
    ensures events[i].file in Run(events).status
    ensures Run(events).status[events[i].file] == OwnOffset(events, i) <==> Since(events, events[i].file, i, Others(i)) == 0
  {
    OwnStatusExact(events, i, i);
    OrderedTake(events, i + 1);
    NotCountedBefore(events[..i + 1], i);
  }

  lemma {:induction false} OrderedTake(events: seq<Event>, k: nat)
    requires Ordered(events) && k <= |events|
    ensures Ordered(events[..k])
  {
    forall j | 0 <= j < k && events[..k][j].Count? ensures Started(events[..k][..j], events[..k][j].attempt) {
      assert events[..k][..j] == events[..j];
    }
  }

  /** A retry while the older attempt is still being counted: the status is neither attempt's offset. */
  lemma RetryMixesStatus(f: nat)
    ensures var events := [Start(f, 0)] + [Count(0, 5)] + [Start(f, 0)] + [Count(0, 3)];
            && Ordered(events) && Run(events) == Account(8, map[f := 3])
            && OwnOffset(events, 0) == 8 && OwnOffset(events, 2) == 0
  {
    var one := [Start(f, 0)];
    var two := one + [Count(0, 5)];
    var three := two + [Start(f, 0)];
    var four := three + [Count(0, 3)];
    assert [] + one == one;
    RunMore([], Start(f, 0));
    RunMore(one, Count(0, 5));
    RunMore(two, Start(f, 0));
    RunMore(three, Count(0, 3));
    CountsMix(f);
  }

  lemma CountMore(events: seq<Event>, event: Event, i: nat)
    ensures CountedBy(events + [event], i) == CountedBy(events, i) + if event.Count? && event.attempt == i then event.last else 0
  {
    assert (events + [event])[..|events|] == events;
  }

  lemma CountsMix(f: nat)
    ensures var events := [Start(f, 0)] + [Count(0, 5)] + [Start(f, 0)] + [Count(0, 3)];
            CountedBy(events, 0) == 8 && CountedBy(events, 2) == 0
  {
    var one := [Start(f, 0)];
    var two := one + [Count(0, 5)];
    var three := two + [Start(f, 0)];
    forall i ensures CountedBy(three + [Count(0, 3)], i) == if i == 0 then 8 else 0 {
      assert CountedBy(one, i) == 0;
      CountMore(one, Count(0, 5), i);
      CountMore(two, Start(f, 0), i);
      CountMore(three, Count(0, 3), i);
    }
  }
}
