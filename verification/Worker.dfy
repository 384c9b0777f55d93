/** One transfer job on the client: completion test, start of the transfer, accounting, notifications and retries. */
module Worker {
  import opened Wrappers
  import opened FileBytes
  import opened Stream
  import A = Accounting

  const DEFAULT_BLOCK_SIZE: nat := 1024

  type Hash = Bytes -> string

  /** The file of a job; `ref` stands for the identity of the File object. */
  datatype ClientFile = ClientFile(ref: nat, path: string, size: nat)

  /** What the server reported: the hash of its file, the recorded size (SizeOnDisk) and its file size. */
  datatype QueryResult = QueryFailed | Reply(dataHash: string, remoteSize: nat, size: nat)

  /**
   * How the local calls of a job turn out: hashing the file, opening it, hashing its first bytes (a failing read stops
   * at `readTo`), seeking to the offset, and seeking back to 0.
   */
  datatype LocalIO = LocalIO(hashOk: bool, openOk: bool, prefixReadOk: bool, readTo: nat, seekOk: bool, rewindOk: bool)

  /** Where a transfer starts: the claimed offset, the real read position of the local file, a fatal notification. */
  datatype Start = Start(offset: nat, position: nat, fatal: bool)

  datatype Plan = PlanQueryError | PlanComplete | PlanOpenFailed | PlanTransfer(start: Start)

  // ----- decisions -----

  /** The completion test: equal hashes, or equal sizes. A local hash that failed is the empty text. */
  predicate AlreadyComplete(file: ClientFile, content: Bytes, hash: Hash, reply: QueryResult, io: LocalIO)
    requires reply.Reply?
  {
    (if io.hashOk then hash(content) else "") == reply.dataHash || file.size == reply.remoteSize
  }

  /**
   * The offset choice. A mismatching prefix hash resets nothing; a failing seek resets the offset, and a failing
   * rewind after it leaves the read position where it was.
   */
  function ChooseStart(content: Bytes, hash: Hash, reply: QueryResult, io: LocalIO): Start
    requires reply.Reply?
  {
    var offset := reply.remoteSize;
    if offset > 0 then
      var reach := if offset <= |content| then offset else |content|;
      var position := if io.prefixReadOk then reach else if io.readTo <= reach then io.readTo else reach;
      var currentHash := if io.prefixReadOk then hash(content[..reach]) else "";
      if currentHash == reply.dataHash then
        if io.seekOk then Start(offset, offset, false)
        else if io.rewindOk then Start(0, 0, false)
        else Start(0, position, true)
      else Start(offset, position, false)
    else Start(0, 0, !io.rewindOk)
  }

  function JobPlan(file: ClientFile, content: Bytes, hash: Hash, reply: QueryResult, io: LocalIO): Plan {
    if reply.QueryFailed? then PlanQueryError
    else if AlreadyComplete(file, content, hash, reply, io) then PlanComplete
    else if !io.openOk then PlanOpenFailed
    else PlanTransfer(ChooseStart(content, hash, reply, io))
  }

  function Min(a: nat, b: nat): nat {
    if a <= b then a else b
  }

  /** The local calls that keep claim and read position together; each failing call breaks the tie only where it says. */
  predicate LocalCallsAgree(content: Bytes, hash: Hash, reply: QueryResult, io: LocalIO)
    requires reply.Reply? && reply.remoteSize <= |content|
  {
    || reply.remoteSize == 0
    || (if io.prefixReadOk
        then hash(content[..reply.remoteSize]) != reply.dataHash || io.seekOk || io.rewindOk
        else io.readTo >= reply.remoteSize)
  }

  /**
   * The offset, for every reply: the reported size, unless the prefix hashes agree and the seek behind that prefix fails. A
   * mismatching prefix hash resets nothing. A seek back to the start that fails is reported as fatal, nothing else is.
   */
  lemma OffsetExact(content: Bytes, hash: Hash, reply: QueryResult, io: LocalIO)
    requires reply.Reply?
    ensures var (s, reach) := (ChooseStart(content, hash, reply, io), Min(reply.remoteSize, |content|));
            var agrees := (if io.prefixReadOk then hash(content[..reach]) else "") == reply.dataHash;
            && (s.offset != reply.remoteSize <==> reply.remoteSize > 0 && agrees && !io.seekOk)
            && (s.offset != reply.remoteSize ==> s.offset == 0)
            && (s.fatal <==> !io.rewindOk && (reply.remoteSize == 0 || (agrees && !io.seekOk)))
            && (agrees && io.seekOk ==> s.position == reply.remoteSize)
            && (!agrees && io.prefixReadOk && reply.remoteSize > 0 ==> s.position == reach)
  {
  }

  /** The bytes sent first are the bytes at the claimed offset exactly when the local calls agree. */
  lemma StartPositionExact(content: Bytes, hash: Hash, reply: QueryResult, io: LocalIO)
    requires reply.Reply? && reply.remoteSize <= |content| && (reply.remoteSize > 0 ==> reply.dataHash != "")
    ensures var s := ChooseStart(content, hash, reply, io);
            && (s.offset == s.position <==> LocalCallsAgree(content, hash, reply, io))
            && s.position <= |content| && s.offset <= reply.remoteSize
  {
  }

  /**
   * Offset soundness: when the reported file is a prefix of the content, as long as it is reported to be, and its hash
   * is reported, the prefix hashes agree. So with successful local calls the transfer resumes behind that prefix.
   */
  lemma ResumesBehindPrefix(content: Bytes, remote: Bytes, hash: Hash, reply: QueryResult, io: LocalIO)
    requires reply.Reply? && remote <= content && reply.remoteSize == |remote| && reply.dataHash == hash(remote)
    requires io.prefixReadOk && io.seekOk
    ensures ChooseStart(content, hash, reply, io) == Start(|remote|, |remote|, |remote| == 0 && !io.rewindOk)
  {
    assert content[..|remote|] == remote;
  }

  // ----- notifications -----

  datatype Notification = FilesUpdated(last: nat) | Completed | QueryError | TransferError | FatalError

  /** What the summary loop makes of one stream notification. */
  function Translate(n: Note): Notification {
    match n.kind
    case NoteError => TransferError
    case NoteBytes => FilesUpdated(n.lastTransferred)
    case NoteClosed => Completed
  }

  /** What becomes of one stream notification: its kind, and the bytes of a block. */
  predicate PassesOn(n: Note, m: Notification) {
    match n.kind
    case NoteError => m == TransferError
    case NoteBytes => m == FilesUpdated(n.lastTransferred)
    case NoteClosed => m == Completed
  }

  /** Every notification of the stream is passed on, in its place, with its bytes. */
  predicate PassedOn(stream: seq<Note>, notes: seq<Notification>) {
    |notes| == |stream| && forall k :: 0 <= k < |stream| ==> PassesOn(stream[k], notes[k])
  }

  function TranslateAll(stream: seq<Note>): seq<Notification> {
    if stream == [] then [] else TranslateAll(stream[..|stream| - 1]) + [Translate(stream[|stream| - 1])]
  }

  /** The bytes that notifications report. */
  function BytesNotified(notes: seq<Notification>): nat {
    if notes == [] then 0
    else BytesNotified(notes[..|notes| - 1]) + if notes[|notes| - 1].FilesUpdated? then notes[|notes| - 1].last else 0
  }

  lemma BytesNotifiedMore(notes: seq<Notification>, last: Notification)
    ensures BytesNotified(notes + [last]) == BytesNotified(notes) + if last.FilesUpdated? then last.last else 0
  {
    assert (notes + [last])[..|notes|] == notes;
  }

  /** In order, none missing, and with every byte that was noted. */
  lemma {:induction false} TranslationPassesOn(stream: seq<Note>)
    ensures PassedOn(stream, TranslateAll(stream)) && BytesNotified(TranslateAll(stream)) == BytesNoted(stream)
  {
    if stream != [] {
      var (init, last) := (stream[..|stream| - 1], stream[|stream| - 1]);
      TranslationPassesOn(init);
      BytesNotifiedMore(TranslateAll(init), Translate(last));
      assert forall k :: 0 <= k < |init| ==> init[k] == stream[k];
    }
  }

  /** The notifications of one attempt, those of the local copy last. */
  function JobNotifications(plan: Plan, stream: seq<Note>, copyFails: bool): seq<Notification> {
    match plan
    case PlanQueryError => [QueryError]
    case PlanComplete => [Completed]
    case PlanOpenFailed => []
    case PlanTransfer(start) =>
      (if start.fatal then [FatalError] else []) + TranslateAll(stream) + (if copyFails then [TransferError] else [])
  }

  predicate IsRetried(n: Notification) {
    n == QueryError || n == TransferError
  }

  /** How often the job goes back on the queue. */
  function Requeues(notes: seq<Notification>): nat {
    if notes == [] then 0
    else Requeues(notes[..|notes| - 1]) + if IsRetried(notes[|notes| - 1]) then 1 else 0
  }

  lemma RequeuesAppend(notes: seq<Notification>, last: seq<Notification>)
    requires |last| <= 1
    ensures Requeues(notes + last) == Requeues(notes) + if last != [] && IsRetried(last[0]) then 1 else 0
  {
    if last == [] {
      assert notes + last == notes;
    } else {
      assert (notes + last)[..|notes + last| - 1] == notes;
    }
  }

  lemma NoErrorNoRequeue(notes: seq<Notification>)
    requires forall i :: 0 <= i < |notes| ==> !IsRetried(notes[i])
    ensures Requeues(notes) == 0
  {
  }

  /** The reply matches the local file: equal hashes, a failed local hash against the empty one, or equal sizes. */
  predicate Matched(file: ClientFile, content: Bytes, hash: Hash, reply: QueryResult, io: LocalIO) {
    reply.Reply? && ((io.hashOk && hash(content) == reply.dataHash) || (!io.hashOk && reply.dataHash == "")
                     || file.size == reply.remoteSize)
  }

  /** A transfer is started: the reply came, did not match, and the file could be opened. */
  predicate Transfers(file: ClientFile, content: Bytes, hash: Hash, reply: QueryResult, io: LocalIO) {
    reply.Reply? && !Matched(file, content, hash, reply, io) && io.openOk
  }

  /** The job is neither requeued nor completed. */
  predicate Lost(notes: seq<Notification>) {
    Requeues(notes) == 0 && Completed !in notes
  }

  /**
   * Retry safety, counted, from the reply and the local calls: a failed query tells subscribers nothing but the error and
   * requeues the job once; a match completes it; a transfer requeues it once for its stream's error and once more for a
   * failing local copy, so an attempt whose stream and copy both fail puts the job on the queue twice. The attempt is lost,
   * neither requeued nor completed, if and only if the reply came, did not match, and the local open failed.
   */
  lemma RetrySafety(file: ClientFile, content: Bytes, hash: Hash, reply: QueryResult, io: LocalIO, stream: seq<Note>, copyFails: bool)
    requires Transfers(file, content, hash, reply, io) ==> Ended(stream)
    ensures var notes := JobNotifications(JobPlan(file, content, hash, reply, io), stream, copyFails);
            && (reply.QueryFailed? ==> notes == [QueryError] && Requeues(notes) == 1)
            && (Matched(file, content, hash, reply, io) ==> notes == [Completed])
            && (Transfers(file, content, hash, reply, io) ==>
                  && Requeues(notes) == (if stream[|stream| - 1].kind == NoteError then 1 else 0) + (if copyFails then 1 else 0)
                  && (Completed in notes <==> stream[|stream| - 1].kind == NoteClosed)
                  && (FatalError in notes <==> ChooseStart(content, hash, reply, io).fatal))
            && (Lost(notes) <==> reply.Reply? && !Matched(file, content, hash, reply, io) && !io.openOk)
  {
    PlanExact(file, content, hash, reply, io);
    if Transfers(file, content, hash, reply, io) {
      TransferRequeues(ChooseStart(content, hash, reply, io), stream, copyFails);
    } else {
      ShortOutcomes();
    }
  }

  /** Which reply leads to which plan. */
  lemma PlanExact(file: ClientFile, content: Bytes, hash: Hash, reply: QueryResult, io: LocalIO)
    ensures var plan := JobPlan(file, content, hash, reply, io);
            && (reply.QueryFailed? ==> plan == PlanQueryError)
            && (Matched(file, content, hash, reply, io) ==> plan == PlanComplete)
            && (Transfers(file, content, hash, reply, io) ==> plan == PlanTransfer(ChooseStart(content, hash, reply, io)))
            && (reply.Reply? && !Matched(file, content, hash, reply, io) && !io.openOk ==> plan == PlanOpenFailed)
  {
  }

  /** The outcomes of an attempt that starts no transfer. */
  lemma ShortOutcomes()
    ensures Requeues([QueryError]) == 1 && !Lost([QueryError]) && !Lost([Completed]) && Lost([])
  {
    RequeuesAppend([], [QueryError]);
    RequeuesAppend([], [Completed]);
    assert [] + [QueryError] == [QueryError] && [] + [Completed] == [Completed] && [Completed][0] == Completed;
  }

  /** Quiet notifications, the one that ends the stream, and that of a failing copy. */
  lemma QuietThenEnd(front: seq<Notification>, last: Notification, failed: seq<Notification>)
    requires forall i :: 0 <= i < |front| ==> !IsRetried(front[i]) && front[i] != Completed
    requires (failed == [] || failed == [TransferError]) && last != FatalError
    ensures Requeues(front + [last] + failed) == (if IsRetried(last) then 1 else 0) + |failed|
    ensures Completed in front + [last] + failed <==> last == Completed
    ensures FatalError in front + [last] + failed <==> FatalError in front
  {
    NoErrorNoRequeue(front);
    RequeuesAppend(front, [last]);
    RequeuesAppend(front + [last], failed);
    assert (front + [last])[|front|] == last;
  }

  lemma TransferRequeues(start: Start, stream: seq<Note>, copyFails: bool)
    requires Ended(stream)
    ensures var notes := JobNotifications(PlanTransfer(start), stream, copyFails);
            && Requeues(notes) == (if stream[|stream| - 1].kind == NoteError then 1 else 0) + (if copyFails then 1 else 0)
            && (Completed in notes <==> stream[|stream| - 1].kind == NoteClosed)
            && (FatalError in notes <==> start.fatal)
  {
    var fatal := if start.fatal then [FatalError] else [];
    var (quiet, last) := (TranslateAll(stream[..|stream| - 1]), Translate(stream[|stream| - 1]));
    var failed := if copyFails then [TransferError] else [];
    QuietBytes(stream[..|stream| - 1]);
    QuietFront(fatal, quiet, start.fatal);
    QuietThenEnd(fatal + quiet, last, failed);
    Regroup(fatal, quiet, [last], failed);
  }

  lemma QuietFront(fatal: seq<Notification>, quiet: seq<Notification>, isFatal: bool)
    requires fatal == (if isFatal then [FatalError] else []) && forall i :: 0 <= i < |quiet| ==> quiet[i].FilesUpdated?
    ensures forall i :: 0 <= i < |fatal + quiet| ==> !IsRetried((fatal + quiet)[i]) && (fatal + quiet)[i] != Completed
    ensures FatalError in fatal + quiet <==> isFatal
  {
  }

  lemma Regroup(a: seq<Notification>, b: seq<Notification>, c: seq<Notification>, d: seq<Notification>)
    ensures a + (b + c) + d == a + b + c + d
  {
  }

  lemma {:induction false} QuietBytes(stream: seq<Note>)
    requires forall k :: 0 <= k < |stream| ==> stream[k].kind == NoteBytes
    ensures forall i :: 0 <= i < |TranslateAll(stream)| ==> TranslateAll(stream)[i].FilesUpdated?
  {
    if stream != [] {
      QuietBytes(stream[..|stream| - 1]);
    }
  }

  /** Lines 72-106 of the worker: the offset and the read position of the opened file, one call after the other. */
  method PositionFile(content: Bytes, hash: Hash, reply: QueryResult, io: LocalIO) returns (start: Start)
    requires reply.Reply?
    ensures start == ChooseStart(content, hash, reply, io)
  {
    var offset, position, fatal := reply.remoteSize, 0, false;
    if offset > 0 {
      var reach := if offset <= |content| then offset else |content|;
      var currentHash := "";
      if io.prefixReadOk {
        position, currentHash := reach, hash(content[..reach]);
      } else {
        position := if io.readTo <= reach then io.readTo else reach;
      }
      if currentHash == reply.dataHash {
        if io.seekOk {
          position := offset;
        } else {
          offset := 0;
          if io.rewindOk {
            position := 0;
          } else {
            fatal := true;
          }
        }
      }
    } else {
      offset := 0;
      fatal := !io.rewindOk;
    }
    start := Start(offset, position, fatal);
  }

  // ----- the connection object -----

  /** What the summary goroutine of an attempt counts for one notification. */
  function CountOf(attempt: nat, summary: Note): seq<A.Event> {
    if summary.kind == NoteBytes then [A.Count(attempt, summary.lastTransferred)] else []
  }

  /** The account that a history of events makes. */
  ghost predicate Booked(history: seq<A.Event>, x: A.Account) {
    A.Ordered(history) && A.Run(history) == x
  }

  /** An attempt of a file has been started. */
  predicate Running(history: seq<A.Event>, attempt: nat, f: nat) {
    A.Started(history, attempt) && history[attempt].file == f
  }

  function Counted(x: A.Account, f: nat, summary: Note): A.Account
    requires f in x.status
  {
    if summary.kind == NoteBytes
    then A.Account(x.bytes + summary.lastTransferred, x.status[f := x.status[f] + summary.lastTransferred]) else x
  }

  lemma RunningIsKnown(history: seq<A.Event>, attempt: nat, f: nat, x: A.Account)
    requires Booked(history, x) && Running(history, attempt, f)
    ensures f in x.status
  {
    var k := A.LastSetOf(history, attempt);
  }

  lemma RunningMore(history: seq<A.Event>, attempt: nat, f: nat, more: seq<A.Event>)
    requires Running(history, attempt, f)
    ensures Running(history + more, attempt, f)
  {
  }

  /** One summary of a running attempt. */
  lemma CountsOne(history: seq<A.Event>, attempt: nat, f: nat, summary: Note, x: A.Account)
    requires Booked(history, x) && Running(history, attempt, f)
    ensures f in x.status && Booked(history + CountOf(attempt, summary), Counted(x, f, summary))
  {
    RunningIsKnown(history, attempt, f, x);
    if summary.kind == NoteBytes {
      A.RunMore(history, A.Count(attempt, summary.lastTransferred));
    } else {
      assert history + [] == history;
    }
  }

  /** One entry is set, every other one is as it was. */
  predicate OnlySet(m: map<nat, nat>, base: map<nat, nat>, key: nat, value: nat) {
    key in m && m[key] == value && m - {key} == base - {key}
  }

  lemma OnlySetTwice(base: map<nat, nat>, once: map<nat, nat>, twice: map<nat, nat>, key: nat, first: nat, second: nat)
    requires OnlySet(once, base, key, first) && OnlySet(twice, once, key, second)
    ensures OnlySet(twice, base, key, second)
  {
  }

  /**
   * The accounting part of a server connection; the status map is keyed by the File object. Its methods are the critical
   * sections of the attempts, in any order; `history` records them.
   */
  class ServerConnection {
    var bytesTransferred: nat
    var fileTransferStatus: map<nat, nat>
    var filesTransferred: map<string, ClientFile>
    ghost var history: seq<A.Event>

    /** The counters are those of the history, whatever attempts have contributed to it. */
    ghost predicate Valid()
      reads this
    {
      Booked(history, A.Account(bytesTransferred, fileTransferStatus))
    }

    constructor ()
      ensures Valid() && history == []
      ensures bytesTransferred == 0 && fileTransferStatus == map[] && filesTransferred == map[]
    {
      bytesTransferred, fileTransferStatus, filesTransferred, history := 0, map[], map[], [];
    }

    /** The job found its file complete on the server. */
    method RecordComplete(file: ClientFile, size: nat)
      requires Valid()
      modifies this
      ensures Valid() && history == old(history) + [A.Complete(file.ref, size)]
      ensures filesTransferred == old(filesTransferred)[file.path := file] && bytesTransferred == old(bytesTransferred)
      ensures fileTransferStatus == old(fileTransferStatus)[file.ref := size]
    {
      A.RunMore(history, A.Complete(file.ref, size));
      filesTransferred := filesTransferred[file.path := file];
      fileTransferStatus := fileTransferStatus[file.ref := size];
      history := history + [A.Complete(file.ref, size)];
    }

    /** The transfer has been started, from an offset. */
    method RecordStart(file: ClientFile, offset: nat) returns (ghost attempt: nat)
      requires Valid()
      modifies this
      ensures Valid() && history == old(history) + [A.Start(file.ref, offset)]
      ensures attempt == |old(history)| && Running(history, attempt, file.ref)
      ensures filesTransferred == old(filesTransferred)[file.path := file] && bytesTransferred == old(bytesTransferred)
      ensures OnlySet(fileTransferStatus, old(fileTransferStatus), file.ref, offset)
    {
      A.RunMore(history, A.Start(file.ref, offset));
      attempt := |history|;
      filesTransferred := filesTransferred[file.path := file];
      fileTransferStatus := fileTransferStatus[file.ref := offset];
      history := history + [A.Start(file.ref, offset)];
    }

    /** One job attempt that no other one disturbs: what is decided, what is recorded, and what is notified. */
    method DoFileTransferJob(file: ClientFile, content: Bytes, hash: Hash, reply: QueryResult, io: LocalIO,
                             stream: seq<Note>, copyFails: bool)
      returns (plan: Plan, notes: seq<Notification>, statuses: seq<nat>)
      requires Valid()
      modifies this
      ensures Valid() && plan == JobPlan(file, content, hash, reply, io)
      ensures notes == JobNotifications(plan, stream, copyFails)
      ensures reply.QueryFailed? ==> notes == [QueryError] && Requeues(notes) == 1
      ensures Matched(file, content, hash, reply, io) ==> notes == [Completed]
      ensures Ended(stream) ==> (Lost(notes) <==> reply.Reply? && !Matched(file, content, hash, reply, io) && !io.openOk)
      ensures filesTransferred == if plan.PlanComplete? || plan.PlanTransfer? then old(filesTransferred)[file.path := file]
                                  else old(filesTransferred)
      ensures plan.PlanQueryError? || plan.PlanOpenFailed? ==> fileTransferStatus == old(fileTransferStatus)
      ensures plan.PlanComplete? ==> fileTransferStatus == old(fileTransferStatus)[file.ref := reply.size]
      ensures plan.PlanTransfer? ==>
              OnlySet(fileTransferStatus, old(fileTransferStatus), file.ref, plan.start.offset + BytesNoted(stream))
      ensures bytesTransferred == old(bytesTransferred) + if plan.PlanTransfer? then BytesNoted(stream) else 0
      ensures plan.PlanTransfer? && Tracks(plan.start.offset, stream) ==> Followed(statuses, stream)
    {
      statuses := [];
      if Ended(stream) {
        RetrySafety(file, content, hash, reply, io, stream, copyFails);
      }
      if reply.QueryFailed? {
        return PlanQueryError, [QueryError], [];
      }
      var fileHash := "";
      if io.hashOk {
        fileHash := hash(content);
      }
      if fileHash == reply.dataHash || file.size == reply.remoteSize {
        RecordComplete(file, reply.size);
        return PlanComplete, [Completed], [];
      }
      if !io.openOk {
        return PlanOpenFailed, [], [];
      }
      var start := PositionFile(content, hash, reply, io);
      plan := PlanTransfer(start);
      notes, statuses := RunTransfer(file, start, stream, copyFails);
      if Tracks(start.offset, stream) {
        StatusesFollow(start.offset, stream);
      }
    }

    /** The transfer itself: the start is recorded, then the stream's notifications are taken, then the copy's error. */
    method RunTransfer(file: ClientFile, start: Start, stream: seq<Note>, copyFails: bool)
      returns (notes: seq<Notification>, statuses: seq<nat>)
      requires Valid()
      modifies this
      ensures Valid() && notes == JobNotifications(PlanTransfer(start), stream, copyFails)
      ensures filesTransferred == old(filesTransferred)[file.path := file]
      ensures OnlySet(fileTransferStatus, old(fileTransferStatus), file.ref, start.offset + BytesNoted(stream))
      ensures bytesTransferred == old(bytesTransferred) + BytesNoted(stream)
      ensures statuses == Statuses(start.offset, stream)
    {
      notes := if start.fatal then [FatalError] else [];
      ghost var attempt := RecordStart(file, start.offset);
      ghost var begun := fileTransferStatus;
      var summaries;
      summaries, statuses := ConsumeSummaries(file, attempt, start.offset, stream);
      OnlySetTwice(old(fileTransferStatus), begun, fileTransferStatus, file.ref, start.offset, start.offset + BytesNoted(stream));
      notes := notes + summaries + (if copyFails then [TransferError] else []);
    }

    /**
     * The summary goroutine, if no other attempt comes in between: every notification of the stream, in order, and the
     * status recorded with each. For a stream that tracks its bytes from the recorded status on, these are the offsets it
     * reports (StatusesFollow).
     */
    method ConsumeSummaries(file: ClientFile, ghost attempt: nat, ghost start: nat, stream: seq<Note>)
      returns (notes: seq<Notification>, statuses: seq<nat>)
      requires Valid() && Running(history, attempt, file.ref)
      requires file.ref in fileTransferStatus && fileTransferStatus[file.ref] == start
      modifies `bytesTransferred, `fileTransferStatus, `history
      ensures Valid() && old(history) <= history
      ensures notes == TranslateAll(stream)
      ensures bytesTransferred == old(bytesTransferred) + BytesNoted(stream)
      ensures OnlySet(fileTransferStatus, old(fileTransferStatus), file.ref, start + BytesNoted(stream))
      ensures statuses == Statuses(start, stream)
    {
      notes, statuses := [], [];
      for k := 0 to |stream|
        invariant Valid() && Running(history, attempt, file.ref)
        invariant old(history) <= history
        invariant file.ref in fileTransferStatus && fileTransferStatus[file.ref] == start + BytesNoted(stream[..k])
        invariant fileTransferStatus - {file.ref} == old(fileTransferStatus) - {file.ref}
        invariant bytesTransferred == old(bytesTransferred) + BytesNoted(stream[..k])
        invariant notes == TranslateAll(stream[..k])
        invariant statuses == Statuses(start, stream[..k])
      {
        OneMoreSummary(start, stream, k);
        var last := ConsumeSummary(file, attempt, stream[k]);
        notes := notes + [last];
        statuses := statuses + [fileTransferStatus[file.ref]];
      }
      assert stream[..|stream|] == stream;
    }

    /** One stream notification, handled under the connection's lock: its bytes are counted for its attempt and file. */
    method ConsumeSummary(file: ClientFile, ghost attempt: nat, summary: Note) returns (notification: Notification)
      requires Valid() && Running(history, attempt, file.ref)
      modifies `bytesTransferred, `fileTransferStatus, `history
      ensures Valid() && Running(history, attempt, file.ref)
      ensures history == old(history) + CountOf(attempt, summary)
      ensures notification == Translate(summary) && PassesOn(summary, notification) && file.ref in old(fileTransferStatus)
      ensures bytesTransferred == old(bytesTransferred) + if summary.kind == NoteBytes then summary.lastTransferred else 0
      ensures fileTransferStatus == old(fileTransferStatus)[file.ref := old(fileTransferStatus)[file.ref]
                + if summary.kind == NoteBytes then summary.lastTransferred else 0]
    {
      CountsOne(history, attempt, file.ref, summary, A.Account(bytesTransferred, fileTransferStatus));
      RunningMore(history, attempt, file.ref, CountOf(attempt, summary));
      history := history + CountOf(attempt, summary);
      match summary.kind {
        case NoteError =>
          notification := TransferError;
        case NoteBytes =>
          bytesTransferred := bytesTransferred + summary.lastTransferred;
          fileTransferStatus := fileTransferStatus[file.ref := fileTransferStatus[file.ref] + summary.lastTransferred];
          notification := FilesUpdated(summary.lastTransferred);
        case NoteClosed =>
          notification := Completed;
      }
    }

    /**
     * A whole attempt with its own local copy and stream. The job is reported complete whenever the stream opened, sent
     * what it read and met the end of its pipe; that was the whole rest exactly when no local read failed before its end.
     * A stream that does not open leaves a copy that has anything to write hanging.
     */
    method TransferWhole(file: ClientFile, content: Bytes, hash: Hash, reply: QueryResult, io: LocalIO,
                         readFailsAt: Option<nat>, cuts: seq<nat>, ending: Ending, streamOpens: bool, sendFailsAt: Option<nat>)
      returns (start: Start, sent: seq<Chunk>, notes: seq<Notification>, copy: CopyEnd)
      requires Valid() && JobPlan(file, content, hash, reply, io).PlanTransfer?
      requires forall k :: 0 <= k < |cuts| ==> 0 < cuts[k] <= DEFAULT_BLOCK_SIZE
      requires Reads(cuts, ending, streamOpens, sendFailsAt, Piped(Rest(content, hash, reply, io), readFailsAt))
      modifies this
      ensures Valid() && start == ChooseStart(content, hash, reply, io)
      ensures Contiguous(start.offset, sent) && Payload(sent) <= Rest(content, hash, reply, io)
      ensures start.position <= |content| ==> Payload(sent) <= content[start.position..]
      ensures |sent| == (if streamOpens then SentCount(cuts, sendFailsAt) else 0) && InSizes(cuts, sent)
      ensures file.ref in fileTransferStatus && fileTransferStatus[file.ref] == start.offset + |Payload(sent)|
      ensures fileTransferStatus - {file.ref} == old(fileTransferStatus) - {file.ref}
      ensures bytesTransferred == old(bytesTransferred) + |Payload(sent)|
      ensures Completed in notes <==> streamOpens && ending == EndOfFile && SendsWell(cuts, sendFailsAt)
      ensures Completed in notes ==>
                (Payload(sent) == Rest(content, hash, reply, io) <==> !ReadFailsEarly(Rest(content, hash, reply, io), readFailsAt))
      ensures Completed in notes && copy == CopyDone ==> Payload(sent) == Rest(content, hash, reply, io)
      ensures copy == CopyHangs <==> !streamOpens && Piped(Rest(content, hash, reply, io), readFailsAt) != []
      ensures Requeues(notes) == (if Completed in notes then 0 else 1) + (if copy == CopyFailed then 1 else 0)
    {
      start := ChooseStart(content, hash, reply, io);
      var rest := Rest(content, hash, reply, io);
      var stream, plan, statuses;
      sent, stream, copy := CopyAndSend(rest, start.offset, readFailsAt, cuts, ending, streamOpens, sendFailsAt);
      WholeFacts(start, rest, stream, sent, readFailsAt, copy);
      plan, notes, statuses := DoFileTransferJob(file, content, hash, reply, io, stream, copy == CopyFailed);
    }
  }

  // ----- the local copy -----

  /** How the local copy into the stream's pipe ends. */
  datatype CopyEnd = CopyDone | CopyFailed | CopyHangs

  /** The content from the read position on, nothing if that is beyond its end. */
  function Rest(content: Bytes, hash: Hash, reply: QueryResult, io: LocalIO): Bytes
    requires reply.Reply?
  {
    var at := ChooseStart(content, hash, reply, io).position;
    if at <= |content| then content[at..] else []
  }

  /** A local read fails before the end of what is to be copied. */
  predicate ReadFailsEarly(rest: Bytes, readFailsAt: Option<nat>) {
    readFailsAt.Some? && readFailsAt.value < |rest|
  }

  /** A local read fails instead of meeting the end of the file, if not before. */
  predicate ReadFails(rest: Bytes, readFailsAt: Option<nat>) {
    readFailsAt.Some? && readFailsAt.value <= |rest|
  }

  /** What the copy writes to the pipe: everything, or what it could read. */
  function Piped(rest: Bytes, readFailsAt: Option<nat>): Bytes {
    if ReadFailsEarly(rest, readFailsAt) then rest[..readFailsAt.value] else rest
  }

  /** Every send of the stream succeeds. */
  predicate SendsWell(cuts: seq<nat>, sendFailsAt: Option<nat>) {
    sendFailsAt == None || |cuts| <= sendFailsAt.value
  }

  /** The reads of the stream: from the pipe, and all that is in it before its end is met. */
  predicate Reads(cuts: seq<nat>, ending: Ending, streamOpens: bool, sendFailsAt: Option<nat>, piped: Bytes) {
    && Sum(cuts) <= |piped|
    && (streamOpens && ending == EndOfFile && SendsWell(cuts, sendFailsAt) ==> Sum(cuts) == |piped|)
  }

  /** The bytes the stream has taken off the pipe, the block of a failing send included. */
  function TakenOff(cuts: seq<nat>, sendFailsAt: Option<nat>): nat {
    Sum(if SendsWell(cuts, sendFailsAt) then cuts else cuts[..sendFailsAt.value + 1])
  }

  /** io.Copy into the pipe, as far as the local file goes. */
  method LocalCopy(rest: Bytes, readFailsAt: Option<nat>) returns (piped: Bytes, readFails: bool)
    ensures piped == Piped(rest, readFailsAt)
    ensures piped == rest <==> !ReadFailsEarly(rest, readFailsAt)
    ensures readFails <==> ReadFails(rest, readFailsAt)
  {
    piped, readFails := rest, false;
    if readFailsAt.Some? && readFailsAt.value <= |rest| {
      piped, readFails := rest[..readFailsAt.value], true;
      if readFailsAt.value == |rest| {
        assert rest[..|rest|] == rest;
      }
    }
  }

  /**
   * How the copy ends: without a reader it hangs as soon as it has something to write, a reader that stops closes the pipe
   * under it, and a failing read ends it.
   */
  function EndOfCopy(piped: Bytes, readFails: bool, streamOpens: bool, taken: nat): CopyEnd {
    if !streamOpens && piped != [] then CopyHangs
    else if readFails || (streamOpens && taken < |piped|) then CopyFailed
    else CopyDone
  }

  /** The local copy and the stream that reads its pipe. */
  method CopyAndSend(rest: Bytes, offset: nat, readFailsAt: Option<nat>, cuts: seq<nat>, ending: Ending,
                     streamOpens: bool, sendFailsAt: Option<nat>)
    returns (sent: seq<Chunk>, stream: seq<Note>, copy: CopyEnd)
    requires forall k :: 0 <= k < |cuts| ==> 0 < cuts[k] <= DEFAULT_BLOCK_SIZE
    requires Reads(cuts, ending, streamOpens, sendFailsAt, Piped(rest, readFailsAt))
    ensures Contiguous(offset, sent) && Payload(sent) <= rest && BytesNoted(stream) == |Payload(sent)|
    ensures |sent| == (if streamOpens then SentCount(cuts, sendFailsAt) else 0) && InSizes(cuts, sent)
    ensures Ended(stream)
    ensures stream[|stream| - 1].kind == NoteClosed <==> streamOpens && ending == EndOfFile && SendsWell(cuts, sendFailsAt)
    ensures stream[|stream| - 1].kind == NoteClosed ==> Payload(sent) == Piped(rest, readFailsAt)
    ensures copy == CopyHangs <==> !streamOpens && Piped(rest, readFailsAt) != []
    ensures copy == CopyDone ==> !ReadFailsEarly(rest, readFailsAt)
    ensures copy == CopyFailed <==>
              (copy != CopyHangs
               && (ReadFails(rest, readFailsAt) || (streamOpens && TakenOff(cuts, sendFailsAt) < |Piped(rest, readFailsAt)|)))
  {
    var piped, readFails := LocalCopy(rest, readFailsAt);
    sent, stream := TransferFile(piped, cuts, ending, DEFAULT_BLOCK_SIZE, offset, streamOpens, sendFailsAt);
    copy := EndOfCopy(piped, readFails, streamOpens, TakenOff(cuts, sendFailsAt));
    assert piped[..|piped|] == piped;
  }

  /** A completed stream has sent what was piped, which is the whole rest exactly when no read failed before its end. */
  lemma SentIsWhole(start: Start, rest: Bytes, stream: seq<Note>, sent: seq<Chunk>, readFailsAt: Option<nat>, copyFails: bool)
    requires Ended(stream)
    requires stream[|stream| - 1].kind == NoteClosed ==> Payload(sent) == Piped(rest, readFailsAt)
    ensures Completed in JobNotifications(PlanTransfer(start), stream, copyFails) <==> stream[|stream| - 1].kind == NoteClosed
    ensures Completed in JobNotifications(PlanTransfer(start), stream, copyFails) ==>
              (Payload(sent) == rest <==> !ReadFailsEarly(rest, readFailsAt))
  {
    TransferRequeues(start, stream, copyFails);
  }

  /** What follows for the attempt from how its copy and its stream ended. */
  lemma WholeFacts(start: Start, rest: Bytes, stream: seq<Note>, sent: seq<Chunk>, readFailsAt: Option<nat>, copy: CopyEnd)
    requires Ended(stream)
    requires stream[|stream| - 1].kind == NoteClosed ==> Payload(sent) == Piped(rest, readFailsAt)
    requires copy == CopyDone ==> !ReadFailsEarly(rest, readFailsAt)
    ensures var notes := JobNotifications(PlanTransfer(start), stream, copy == CopyFailed);
            && (Completed in notes <==> stream[|stream| - 1].kind == NoteClosed)
            && (Completed in notes ==> (Payload(sent) == rest <==> !ReadFailsEarly(rest, readFailsAt)))
            && (Completed in notes && copy == CopyDone ==> Payload(sent) == rest)
            && Requeues(notes) == (if Completed in notes then 0 else 1) + (if copy == CopyFailed then 1 else 0)
  {
    SentIsWhole(start, rest, stream, sent, readFailsAt, copy == CopyFailed);
    TransferRequeues(start, stream, copy == CopyFailed);
  }

  lemma OneMoreSummary(start: nat, stream: seq<Note>, k: nat)
    requires k < |stream|
    ensures TranslateAll(stream[..k + 1]) == TranslateAll(stream[..k]) + [Translate(stream[k])]
    ensures BytesNoted(stream[..k + 1]) ==
            BytesNoted(stream[..k]) + if stream[k].kind == NoteBytes then stream[k].lastTransferred else 0
    ensures Statuses(start, stream[..k + 1]) == Statuses(start, stream[..k]) + [start + BytesNoted(stream[..k + 1])]
  {
    assert stream[..k + 1][..k] == stream[..k];
  }

  /** The statuses recorded with the notifications of an attempt that is not disturbed. */
  function Statuses(start: nat, stream: seq<Note>): seq<nat> {
    if stream == [] then [] else Statuses(start, stream[..|stream| - 1]) + [start + BytesNoted(stream)]
  }

  /** With every notification the status recorded is the offset the stream reports. */
  predicate Followed(statuses: seq<nat>, stream: seq<Note>) {
    |statuses| == |stream| && forall k :: 0 <= k < |stream| ==> statuses[k] == stream[k].currentOffset
  }

  lemma {:induction false} StatusAt(start: nat, stream: seq<Note>, k: nat)
    requires k < |stream|
    ensures |Statuses(start, stream)| == |stream| && Statuses(start, stream)[k] == start + BytesNoted(stream[..k + 1])
    decreases |stream|
  {
    var init := stream[..|stream| - 1];
    if init != [] {
      StatusAt(start, init, if k < |init| then k else 0);
    }
    if k < |init| {
      assert init[..k + 1] == stream[..k + 1];
    } else {
      assert stream[..k + 1] == stream;
    }
  }

  lemma StatusesFollow(start: nat, stream: seq<Note>)
    requires Tracks(start, stream)
    ensures Followed(Statuses(start, stream), stream)
  {
    forall k | 0 <= k < |stream| ensures |Statuses(start, stream)| == |stream| && Statuses(start, stream)[k] == stream[k].currentOffset {
      StatusAt(start, stream, k);
    }
  }

  /** What subscribers are told: everything but the errors that put the job back on the queue. */
  function Published(notes: seq<Notification>): seq<Notification> {
    if notes == [] then []
    else Published(notes[..|notes| - 1]) + if IsRetried(notes[|notes| - 1]) then [] else [notes[|notes| - 1]]
  }

  lemma OneMoreNote(notes: seq<Notification>, k: nat)
    requires k < |notes|
    ensures Requeues(notes[..k + 1]) == Requeues(notes[..k]) + if IsRetried(notes[k]) then 1 else 0
    ensures Published(notes[..k + 1]) == Published(notes[..k]) + if IsRetried(notes[k]) then [] else [notes[k]]
    ensures Completed in notes[..k + 1] <==> Completed in notes[..k] || notes[k] == Completed
  {
    var init := notes[..k + 1];
    assert init == notes[..k] + [notes[k]] && init[..|init| - 1] == notes[..k];
  }

  /** The client's router: errors requeue the job, completion may delete the local file, the rest goes to subscribers. */
  method RouteNotifications(notes: seq<Notification>, deleteOnComplete: bool)
    returns (requeued: nat, deleted: bool, published: seq<Notification>)
    ensures requeued == Requeues(notes)
    ensures deleted <==> deleteOnComplete && Completed in notes
    ensures published == Published(notes)
  {
    requeued, deleted, published := 0, false, [];
    for k := 0 to |notes|
      invariant requeued == Requeues(notes[..k])
      invariant deleted <==> deleteOnComplete && Completed in notes[..k]
      invariant published == Published(notes[..k])
    {
      OneMoreNote(notes, k);
      if IsRetried(notes[k]) {
        requeued := requeued + 1;
      } else {
        if notes[k] == Completed {
          deleted := deleted || deleteOnComplete;
        }
        published := published + [notes[k]];
      }
    }
    assert notes[..|notes|] == notes;
  }

  /** What is published of two lists, one after the other, is what is published of each, in that order. */
  lemma {:induction false} PublishedInOrder(a: seq<Notification>, b: seq<Notification>)
    ensures Published(a + b) == Published(a) + Published(b)
    decreases |b|
  {
    if b == [] {
      assert a + b == a;
    } else {
      var (init, last) := (b[..|b| - 1], b[|b| - 1]);
      PublishedInOrder(a, init);
      assert (a + b)[..|a + b| - 1] == a + init;
    }
  }

  lemma PublishedOne(notes: seq<Notification>, init: seq<Notification>, last: Notification)
    requires notes != [] && init == notes[..|notes| - 1] && last == notes[|notes| - 1]
    ensures Published(notes) == if IsRetried(last) then Published(init) else Published(init) + [last]
  {
  }

  /** Subscribers are told of every byte. */
  lemma {:induction false} PublishedBytes(notes: seq<Notification>)
    ensures BytesNotified(Published(notes)) == BytesNotified(notes)
  {
    if notes != [] {
      var (init, last) := (notes[..|notes| - 1], notes[|notes| - 1]);
      PublishedBytes(init);
      PublishedOne(notes, init, last);
      if !IsRetried(last) {
        BytesNotifiedMore(Published(init), last);
      }
    }
  }

  /** Nothing is published that would requeue, nothing else is lost, and no notification is published twice. */
  lemma {:induction false} PublishedIsTheRest(notes: seq<Notification>)
    ensures |Published(notes)| + Requeues(notes) == |notes|
    ensures multiset(Published(notes)) <= multiset(notes)
    ensures forall n :: n in Published(notes) ==> !IsRetried(n)
  {
    if notes != [] {
      var (init, last) := (notes[..|notes| - 1], notes[|notes| - 1]);
      PublishedIsTheRest(init);
      assert notes == init + [last];
    }
  }
}
