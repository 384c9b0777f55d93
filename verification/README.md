# Torrxfer: a model of resumable file transfer

Torrxfer copies files from watched client directories to a server over a query call and a chunk stream, and resumes
a transfer that was cut off. This project models that machinery in Dafny and proves what it keeps and what it does not.

| file | models |
|---|---|
| `FileBytes.dfy` | positioned writes to a file, and a session's chunks as one write |
| `Stream.dfy` | the client's chunk loop and its notifications |
| `ServerFile.dfy` | the database record: six fields joined by `*?*`, split, trimmed and parsed |
| `Accounting.dfy` | the client's counters while any number of attempts run at once |
| `Worker.dfy` | the transfer job: completion test, start offset, counters, outcomes, retries |
| `Protocol.dfy` | clients, attempts, chunks on their way, server sessions and writer threads as one transition system |
| `ProtocolShape.dfy` | what every step keeps under no hypothesis |
| `ProtocolSafety.dfy` | the prefix invariant of one path, operation by operation |
| `ProtocolRuns.dfy` | the prefix invariant over whole runs, and exactly when a run or a disk keeps it |
| `ProtocolRecords.dfy` | records that stay decodable; which files and open handles survive |
| `ProtocolOutcomes.dfy` | completion, offsets, accounting, restarts |
| `ProtocolHome.dfy` | streams that reach the session of their own query |
| `ProtocolLedger.dfy` | the bytes a session was fed, took and wrote over a run, and what a close spares |
| `ProtocolQueries.dfy` | what a query stores and primes; sessions and records over whole runs |
| `ProtocolStreams.dfy` | what becomes of a stream that has ended |
| `ProtocolProgress.dfy` | an undisturbed session, and from which states a job can still be finished |
| `ProtocolCompletion.dfy` | the completion test over all initial disks |
| `ProtocolLimits.dfy` | concrete failing runs, sessions that never write, lost files |
| `ProtocolExample.dfy` | a world that meets all hypotheses, for any client files |
| `Server.dfy` | the server object: its methods are the protocol's operations and keep every path safe |
| `Dispatcher.dfy` | dispatcher and worker pool over all interleavings, shutdown and hung workers included |
| `Watcher.dfy` | the debounce of file events with a discrete clock and one event goroutine |
| `Paths.dfy` | from a watched directory to the path on the server |
| `Wrappers.dfy` | an option type and small facts on sequences and maps |

## What is proved

The protocol has no file lock that works (`pkg/server/server.go:127` locks no path), no truncation on open, no check of
the offsets it is sent, and a query that is not atomic. What makes it right, as far as it is, is one invariant: under
every path whose content the database knows lies a prefix of that content. It is stated and proved path by path.

- Any run at all: a step keeps the invariant of a path iff the write it makes, if any, lands, so all states of a run
  are safe iff all its writes land (`ProtocolRuns.FlushesExact`). Nothing is asked of clients, streams or deliveries.
- Aligned runs: writes land whenever a chunk that reaches a listening session starts where that session's bytes end, or,
  as the first one, inside the file (`Protocol.Aligned`). That is a check `TransferFunction` could make and does not.
  Under it the invariant holds in all interleavings of any number of clients, sessions, closes, failures and retries,
  from whichever stream the chunks come, exactly for the initial disks that allow it (`ProtocolRuns.PrefixInvariantExact`).
- Home runs: today's server, which reports no sizes, is aligned on every path as long as chunks reach the session that
  their own query primed (`ProtocolHome.HomeRunsAreLegal`), and `ProtocolHome.HomeDeliveryExact` is the exact condition
  for either server.
- From safe files alone, that is over all runs whose writes land, follow completion and offset soundness, the
  unreachability of the mismatch branch, and the growth of files. The server's records add up in any run.
- Bytes and records are conserved. In every run the bytes a session took from its pipe are those it wrote and those in
  its copy buffer, so a close loses only what was not read (`ProtocolLedger.BytesConserved`,
  `ProtocolLedger.CloseSparesRead`). A session carries what its own query said (`ProtocolQueries.SessionsAreQueries`), the
  record it stores decodes to that (`ProtocolQueries.RecordOfItsQuery`), and the database holds under each key the last
  record stored there (`ProtocolQueries.DatabaseExact`).
- The watcher hands on the files of its events, in order and unchanged (`Watcher.DeliveredExact`).
- Progress: after any run whose writes land there is a run that finishes the job (`ProtocolProgress.EveryJobCanFinish`).
  Today's server recovers from more: after any run at all a job can be finished iff its content is unknown, or a first
  query is pending, or the file is not longer than the content (`ProtocolProgress.TodayFinishesExact`).
- The client's counters, over all interleavings of attempts: bytesTransferred is the sum of all bytes counted
  (`Accounting.BytesAreTheSum`), and a status is what was last set plus all that was counted since (`Accounting.StatusExact`).

Hypotheses, each of them a parameter or a predicate in the model:

- `Protocol.HashOk`: the hash is not empty and collision free on the contents in play and their prefixes. Only
  where stale or corrupted files are spoken of is no collision with any file asked for (`Protocol.NoCollision`).
- `Protocol.RecordsFit` and `Protocol.Timely`, where records matter: file sizes below 2^63, plain paths and prefixes (no
  `*?*`, no final `*?`, nothing to trim), and no time at the epoch.
- `Protocol.Benign`, for one path: the local seek and hash calls keep claim and read position together
  (`Worker.StartPositionExact` says exactly when they do), and chunks are aligned and of the session's path.
- A send returns before the server has received anything: chunks are on their way, in order, until the server takes
  them or the connection dies.
- One content per path during a run. `ProtocolOutcomes.NewContentsAreSafe` covers contents that change between runs.
- A query is two steps, its lookup and the rest, and anything may happen between them. A query that finds its hash known
  is one step, and so are removal, put and priming of one that does not.
- `reportsSize` is a parameter. Today the server never fills SizeOnDisk (`pkg/net/file.go:47-54`), although
  `proto/server.proto:14-15` promises the recorded amount; the theorems hold for both values.

`ProtocolExample.AnyFileCanBeStored` shows that these hypotheses can be met together, for any client files of plain paths.

Where the code and its promises part:

- The server sends a client's chunks to that client's current session, whichever stream they come from. A job is
  requeued under its old ID, twice if stream and local copy both fail (`Worker.RetrySafety`), so an older stream can
  write into a newer session. `ProtocolLimits.StaleStreamCorrupts` leaves a hole. In `ProtocolLimits.TwoStreamsCorrupt`
  every delivery but the last is aligned and every state before it safe, and the chunk that then corrupts the file goes
  to its own session. A single delivery can therefore not be judged by whether its bytes land; alignment is the check.
- The query takes no lock between its lookup and its put. Two first queries of one content can both miss, and the later
  one then removes the file of a job already reported complete (`ProtocolLimits.LateMissLosesFile`). The prefix
  invariant survives that. A file, or the name of an open one, survives iff no query that missed is still undecided
  (`ProtocolRecords.FileSurvivesExact`, `ProtocolRecords.OpenFileSurvivesExact`), and so does a
  completion (`ProtocolOutcomes.CompletionSound`).
- A stream's normal end is reported as completion, and may delete the local file, before the server has received
  anything; a local copy error, too, ends the stream normally. `Worker.ServerConnection.TransferWhole`: a completed
  stream has sent the whole rest iff no local read failed early. `ProtocolStreams.StreamEndExact`: when all was sent and
  the server file is not whole yet, the stream's own session can still store the content iff it listens, no byte was
  dropped, and the first byte leaves no wrong gap. `ProtocolLimits.FailedCopyCompletes`,
  `ProtocolLimits.LostWireCompletes` and `ProtocolLimits.DeafStreamCompletes` are runs, for every content, in which
  completion is reported over an empty file; in the last two everything was sent.
- A first chunk that comes before the writer waits loses its signal: the session never writes
  (`ProtocolLimits.FirstChunkDecides`, `ProtocolLimits.LostSignalIsForever`).
- The database is keyed by content, not by path, so a stale file that is known, or on a second path of the same content,
  is never removed. `ProtocolCompletion.CompletionDiskExact` says for which initial disks that leads to a false
  completion: with reported sizes, those whose stale file can become as long as the content; without, as today, only a
  stale file under an empty content. Any other content today's test judges rightly, on every disk and in every run
  (`ProtocolCompletion.HashCompletionIsSound`).
- A failed local hash is the empty text, which equals the hash of an absent file (`ProtocolOutcomes.CompletionExact`).
- Decoding a record exchanges its two times, and a creation time at the epoch makes the record undecodable, which
  loses first the record and then the file (`ServerFile.StoredRecordDecodes`, `ProtocolLimits.EpochLosesFile`).
- A stream that cannot be opened leaves the local copy without a reader. The copy runs in the pool worker, which hangs.
  At rest, every submitted job has run or hangs iff some worker does not hang or no job waits (`Dispatcher.RestExact`);
  once all workers hang nothing runs any more (`Dispatcher.NothingRunsAnyMore`), and as many failures as there are
  workers lead there (`Dispatcher.PoolCanStarve`).
- Two attempts of one file can run at once, and the later start resets the status the older one is adding to. A status
  is the latest attempt's own offset iff no other attempt of the file has counted bytes since
  (`Accounting.LatestStatusExact`); `Accounting.RetryMixesStatus` is the failing run.
- `IsSubdir` accepts a directory and its direct children only, while its comment says sub directory
  (`Paths.IsSubdirExact`).
- A watcher handler that takes an update after its AfterFunc timer has fired is stuck for good, and once its channel is
  full the one event goroutine waits on it, so that no path gets updates any more (`Watcher.StuckIsForever`,
  `Watcher.BlockedStopsAllPaths`). Updates still buffered when a handler notifies are dropped (`Watcher.WakeDropsBuffered`).

## Model

| member | source | states |
|---|---|---|
| FileBytes.WriteAt | pkg/server/server.go:283-312 | a positioned write never shortens the file, leaves the bytes before it, and puts the data at its position |
| FileBytes.WriteAtTwice | pkg/server/server.go:312 | writing two pieces one behind the other is writing them at once |
| FileBytes.WriteKeepsPrefix | pkg/server/server.go:300-312 | a write of the right bytes inside a prefix of the content leaves a prefix, never a shorter one |
| FileBytes.PrefixAfterWrite | pkg/server/server.go:300-312 | a write keeps a prefix a prefix iff its bytes are the content's own at that position and any hole before it is zeros in the content |
| FileBytes.AppendRefinesOffsets | pkg/server/server.go:204-218 | offset set once and then appending gives the same file as writing every chunk at its own claimed offset, for every contiguous stream |
| FileBytes.MisplacedChunk | pkg/server/server.go:212-216 | the write that appends a chunk claimed for another position leaves a prefix of every content iff the two positions are equal |
| FileBytes.Splice | pkg/server/server.go:283-318 | an uninterrupted session ends with old[..o] + content[o..] + old's tail, and equals the content iff the prefixes agree and old is not longer |
| FileBytes.FreshTransferIsExact | pkg/server/server.go:105-112 | after the miss branch's removal a transfer from 0 ends with exactly the content |
| FileBytes.LongerFileNeverRepaired | pkg/server/server.go:283 | without truncation a longer old file keeps its length at every offset, so it never becomes the content |
| FileBytes.WriterThread | pkg/server/server.go:300-318 | seek, copy and count: file, handle position and recorded size are those of one write at the offset |
| Stream.SentOneMore | pkg/net/torrxferserverconnection.go:156-179 | one turn of the loop keeps: what was sent is the source's first bytes, contiguous, in the sizes read, and each block is noted with its size and the offset behind it |
| Stream.SendBlocks | pkg/net/torrxferserverconnection.go:138-180 | the loop sends the source block by block in the sizes read, each block noted: all of them, or, when a send fails, exactly those before it |
| Stream.NotedTracks | pkg/net/torrxferserverconnection.go:173-180 | notifications that carry size and end offset of each block track the stream and add up to all bytes sent |
| Stream.TransferFile | pkg/net/torrxferserverconnection.go:116-189 | the blocks sent are in the sizes read: none if the stream does not open, those before the failing send if there is one, all of them otherwise, also when the source ends in a read failure; contiguous offsets from the start, every block noted, one ending notification at the offset reached, Closed iff every read and send succeeded |
| Stream.NormalEndCompletesFile | pkg/net/torrxferserverconnection.go:181-186 | if all that was sent of content[o..] is written onto an agreeing file, it completes the file iff that was not longer |
| ServerFile.UintRoundTrip | pkg/server/serverfile.go:101-111 | every uint64 survives decimal text, trimming and parsing |
| ServerFile.TrimExact | pkg/server/serverfile.go:99-101 | trimming removes the space at both ends, all of it and nothing else |
| ServerFile.SplitField | pkg/server/serverfile.go:93 | leftmost splitting takes a field off whole iff it neither contains the delimiter nor overlaps with its start |
| ServerFile.SplitJoin | pkg/server/serverfile.go:38-93 | splitting what joining made gives the fields back |
| ServerFile.RecordTokens | pkg/server/serverfile.go:52-98 | a record with separable paths splits into exactly its six fields |
| ServerFile.TextForm | pkg/server/serverfile.go:38-65 | the stored text, written out: path, prefix, size, size reached, time of creation (nothing for the epoch) and of modification, in that order |
| ServerFile.RoundTripExact | pkg/server/serverfile.go:38-123 | both paths come back iff both are plain; then everything does, with the two times exchanged |
| ServerFile.PlainComesBack | pkg/server/serverfile.go:99-122 | a plain record decodes to itself with its times exchanged, whatever it is decoded into |
| ServerFile.OnlyPlainComesBack | pkg/server/serverfile.go:93-100 | paths that come back were plain |
| ServerFile.DecodeLeaves | pkg/server/serverfile.go:94-106 | what an error leaves behind: nothing of a text without six fields, and of one with six at least both paths, and the size if that parses |
| ServerFile.StoredRecordDecodes | pkg/server/serverfile.go:42-47 | a stored text decodes iff the creation time is not the epoch |
| ServerFile.OverlapBreaksRoundTrip | pkg/server/serverfile.go:17 | a path without the delimiter that ends in its first two characters does not come back |
| ServerFile.File.GetStrings | pkg/server/serverfile.go:38-65 | the pieces are the fields with a delimiter between each two, or nothing when a time has no text |
| ServerFile.File.MarshalText | pkg/server/serverfile.go:68-86 | a fresh array that holds exactly the record's text |
| ServerFile.File.UnmarshalText | pkg/server/serverfile.go:89-123 | assigns the decoded fields, and on an error those before it |
| ServerFile.FillBuffer | pkg/server/serverfile.go:75-85 | two passes over any pieces: sized exactly, no write out of range, the concatenation of all pieces |
| Accounting.RunMore | pkg/client/worker.go:114-138 | one more critical section, of whichever attempt, is one more step of the account |
| Accounting.BytesAreTheSum | pkg/client/worker.go:130-132 | in every interleaving bytesTransferred is the sum over all attempts, of all files, of the bytes counted for them |
| Accounting.StatusExact | pkg/client/worker.go:114-133 | in every interleaving the status of a file is what the last start or completion on it set plus every byte counted for the file since |
| Accounting.OwnStatusExact | pkg/client/worker.go:114-133 | the status is an attempt's own offset iff what was last set, plus what others have counted since, is where the attempt stood then |
| Accounting.LatestStatusExact | pkg/client/worker.go:114-133 | for the attempt that set it last: iff no other attempt of the file has counted bytes since |
| Accounting.RetryMixesStatus | pkg/client/worker.go:118-133 | a retry beside an older attempt: the status is neither one's offset |
| Worker.StartPositionExact | pkg/client/worker.go:72-106 | claimed offset and read position agree iff the local calls keep them together |
| Worker.OffsetExact | pkg/client/worker.go:72-106 | for every reply: the offset is the reported size unless the prefix hashes agree and the seek fails, a mismatch resets nothing, and fatal is reported iff a seek back to the start was tried and failed |
| Worker.ResumesBehindPrefix | pkg/client/worker.go:82-93 | with successful local calls and a prefix on the server the transfer starts right behind it |
| Worker.PositionFile | pkg/client/worker.go:70-106 | the step by step offset choice computes the chosen start |
| Worker.PlanExact | pkg/client/worker.go:45-81 | which reply and which local calls lead to which decision |
| Worker.RetrySafety | pkg/client/worker.go:45-153 | from reply and local calls: a failed query notifies one query error and requeues once; a match completes; a transfer requeues once for its stream and once for its copy; lost, neither requeued nor completed, iff the reply came, did not match, and the local open failed |
| Worker.TranslationPassesOn | pkg/client/worker.go:121-138 | every stream notification is passed on as its kind demands, in order, and the bytes notified are the bytes noted |
| Worker.SentIsWhole | pkg/client/worker.go:136-137 | an attempt is reported completed iff its stream ended normally, and then it has sent the whole rest iff no local read failed before its end |
| Worker.CopyAndSend | pkg/client/worker.go:108-151 | copy and stream together: the copy hangs iff the stream does not open and there is something to write, fails iff a read fails or the stream stops before all is taken; the blocks sent are those before the failing send, in the sizes read, and a normal end means all that was piped was sent |
| Worker.ServerConnection.constructor | pkg/client/connection.go:64-76 | counters and maps start empty, with an empty history |
| Worker.ServerConnection.DoFileTransferJob | pkg/client/worker.go:40-153 | one attempt that no other one disturbs: a failed query gives exactly one query error and one requeue, a match exactly one completion, and the job is lost iff the reply came, did not match, and the open failed; the new values of all three fields, statuses that follow the stream, and counters that stay those of the whole history |
| Worker.ServerConnection.RunTransfer | pkg/client/worker.go:114-151 | start recorded, stream consumed, copy error last: the notifications in order, one entry set to offset plus bytes noted, every other one as it was |
| Worker.ServerConnection.ConsumeSummaries | pkg/client/worker.go:121-140 | with no other attempt in between: every byte notified is added once to both counters, every notification is passed on in order, and the status after each one is where the attempt started plus the bytes noted so far |
| Worker.StatusesFollow | pkg/client/worker.go:127-134 | for a stream that tracks its bytes those statuses are the offsets it reports |
| Worker.ServerConnection.TransferWhole | pkg/client/worker.go:107-151 | a whole attempt: the blocks sent are the content's own from the read position on, those before the failing send, in the sizes read; completed iff the stream opened, read to its end and sent every block; a completed one has sent the whole rest iff no local read failed early; how the copy ends, and the exact number of requeues |
| Worker.RouteNotifications | pkg/client/client.go:193-214 | errors requeue, completion deletes if asked to, and subscribers get exactly the rest, in order |
| Worker.PublishedIsTheRest | pkg/client/client.go:193-214 | every notification is either requeued or published, none twice, and none that would requeue is published |
| Worker.PublishedInOrder | pkg/client/client.go:193-214 | what is published of two lists is what is published of the one, then of the other |
| Worker.PublishedBytes | pkg/client/client.go:209-213 | subscribers are told of every byte notified |
| Protocol.StreamFeedsSession | pkg/net/torrxferclientconnection.go:74-90 | over a whole receive loop only the first offset counts and all bytes are appended in order |
| ProtocolShape.SentWire | pkg/net/torrxferserverconnection.go:155-173 | a send, on a stream that was not cut off, puts the next bytes of the content behind those on their way, at the offset claimed for them |
| ProtocolShape.ReceivedWire | pkg/net/torrxferclientconnection.go:74-90 | taking the first chunk leaves the next bytes in order on their way |
| ProtocolShape.StepKeepsBase | pkg/server/server.go:98-328 | every step, under no hypothesis, keeps sessions in the shape of their phase, handles with names only over existing files, and every attempt true to the reply it was given |
| ProtocolShape.RunKeepsBase | pkg/server/server.go:98-328 | so does every run |
| ProtocolSafety.HitKept | pkg/server/server.go:144-201 | the hit branch keeps what a path has: a prefix, an untouched old file, or one that is too long |
| ProtocolSafety.MissKept | pkg/server/server.go:102-142 | so does the rest of a query whose hash was unknown, with other sessions on the file and its name taken away under them |
| ProtocolSafety.FeedFits | pkg/server/server.go:205-217 | an aligned chunk of the content's own bytes leaves the session with bytes that belong where they will be written |
| ProtocolSafety.CloseFits | pkg/server/server.go:221-227 | a close empties the pipe and keeps what the writer has read, where it stands and what it has counted; what is left still fits the file |
| ProtocolSafety.OpenKept | pkg/server/server.go:283 | opening without truncation keeps what a path has |
| ProtocolSafety.SoughtFits | pkg/server/server.go:300-305 | the handle moves to the first offset, where the waiting bytes belong |
| ProtocolSafety.FlushGood | pkg/server/server.go:312 | a single write of a fitting session makes the prefix no shorter, with other writers on the same path |
| ProtocolSafety.FlushKept | pkg/server/server.go:312 | every single write of any session keeps what any path has |
| ProtocolSafety.FinishKept | pkg/server/server.go:318-325 | counting and storing the record keeps what any path has |
| ProtocolRuns.BeginHonest | pkg/client/worker.go:70-113 | a transfer that starts with agreeing local calls claims the offset it reads at, or was told of a longer file |
| ProtocolRuns.HonestChunk | pkg/server/server.go:205-217 | an aligned chunk of such a transfer carries the content's own bytes, whichever session takes it |
| ProtocolRuns.StepKeepsInv | pkg/server/server.go:98-328 | every step of client, server and writer that is benign for a path keeps the invariant of that path |
| ProtocolRuns.RunKeepsInv | pkg/server/server.go:98-328 | so does every run, whatever it does to other paths |
| ProtocolRuns.PrefixInvariantExact | pkg/server/server.go:98-328 | in all aligned runs a known file is a prefix of its content iff the initial disk holds a prefix there, or an old file whose content is unknown and on no other path |
| ProtocolRuns.StepSoft | pkg/server/server.go:98-328 | any step leads from a fine file to a fine file iff the write it makes, if any, lands |
| ProtocolRuns.FlushesExact | pkg/server/server.go:98-328 | for any possible run, no stream hypothesis at all: every state is safe at a path iff every write of the run to its file lands |
| ProtocolRuns.RunKeepsClean | pkg/server/server.go:98-328 | in every run whose writes to a path land its file stays fine and every reply is made of a prefix |
| ProtocolRuns.RunKeepsHonest | pkg/client/worker.go:70-113 | in every such run whose local calls agree, streams read where they claim to, whatever happens to their chunks |
| ProtocolRuns.RunKeepsStrict | pkg/server/server.go:98-328 | on a path that started fine every reply was made of a prefix |
| ProtocolRuns.AlignedWritesLand | pkg/server/server.go:204-312 | in aligned runs all writes land |
| ProtocolRecords.StepKeepsRecords | pkg/server/server.go:134-159 | no timely step makes a stored record undecodable, a size or offset too large, or forgets a hash |
| ProtocolRecords.RecordsStayDecodable | pkg/server/server.go:147-159 | in every timely run a known hash stays known and its record decodable, so the delete branch never runs |
| ProtocolRecords.RunGrows | pkg/server/server.go:98-328 | a known file on which no undecided first query is pending only grows, in every run whose writes to it land |
| ProtocolRecords.FileSurvivesExact | pkg/server/server.go:102-112 | a known file keeps its bytes in all later runs whose writes to it land iff no query that found its hash unknown is pending on its path, or it is empty |
| ProtocolRecords.OpenFileSurvivesExact | pkg/server/server.go:102-112 | the file of an open session keeps its name in all later runs iff no such query is pending |
| ProtocolOutcomes.AnswerIsCurrent | pkg/server/server.go:98-202 | at the moment of a reply the file it was made of is the file on the server, and its hash, its size and the reported sizes are those of the reply |
| ProtocolOutcomes.CompletionExact | pkg/client/worker.go:53-59 | after every run whose writes land: a completed job's file was whole when its query was answered iff the local hash was computed, or the server had the file, or the content is empty; the status recorded for it is the length of that file |
| ProtocolOutcomes.FailedHashCompletes | pkg/client/worker.go:53-59 | a failed local hash over an absent file always completes the job, whatever its content |
| ProtocolOutcomes.CompletionStands | pkg/client/worker.go:53-68 | with no undecided first query pending, the file of a completed job is its content in every later run |
| ProtocolOutcomes.CompletionSound | pkg/client/worker.go:53-68 | from a current reply, completion at any later moment means a whole file at that moment iff no such query is pending, or the reply saw something else, or the content is empty |
| ProtocolOutcomes.CompletionFromStart | pkg/client/worker.go:45-68 | from a started server: a query answered after any timely run whose writes land leads to completions that are right at every later moment iff no first query is undecided at the answer, or the answer saw something else, or the content is empty |
| ProtocolOutcomes.OffsetSound | pkg/client/worker.go:70-113 | after every run whose writes land and local calls agree, every running transfer reads where it claims to, and starts at 0 or right behind a prefix it was told of |
| ProtocolOutcomes.OffsetStands | pkg/client/worker.go:70-113 | with no such query pending the bytes before that offset stay on the server |
| ProtocolOutcomes.MismatchUnreachable | pkg/client/worker.go:82-99 | after every run whose writes land the prefix hash equals the reported hash, so the missing else branch is dead |
| ProtocolOutcomes.ServerAccounting | pkg/server/server.go:318-327 | when a writer ends: recorded size = first offset + bytes copied = handle position, and the stored record decodes to it |
| ProtocolOutcomes.AccountedBytes | pkg/server/server.go:300-318 | a session that has written under the file's name has its position inside a prefix of the content, and at the full length the file is the content |
| ProtocolOutcomes.RestartIsSafe | pkg/server/server.go:85-96 | after a restart at any point of a run whose writes land, all states of any run are safe iff its writes land, and aligned runs are such |
| ProtocolOutcomes.NewContentsAreSafe | pkg/server/server.go:102-142 | when contents change between runs, the same holds of a path that keeps its content or gets an unknown one of its own |
| ProtocolHome.FeedStream | pkg/server/server.go:205-217 | a chunk fed to the session of its own query keeps the session where its stream says it is |
| ProtocolHome.HomeDeliveryExact | pkg/server/server.go:205-217 | while chunks reach the sessions of their own queries, the next one is benign iff it does not start a session behind the end of its file |
| ProtocolHome.HomeRunsAreLegal | pkg/server/server.go:205-217 | today's server: every run with home deliveries is aligned on every path, whatever fails or is interleaved |
| ProtocolHome.HomeRunsAreSafe | pkg/server/server.go:98-328 | so in all such runs the prefix invariant holds |
| ProtocolHome.HomeAccounting | pkg/server/server.go:318-327 | the recorded size of a home session is the offset its own attempt claimed plus every byte copied |
| ProtocolLedger.StepBalanced | pkg/server/server.go:205-312 | every step enters into a session's account of bytes fed, taken and written exactly what it changes of its pipe, copy buffer and count |
| ProtocolLedger.RunBalanced | pkg/server/server.go:205-312 | so does every run, from any state with sound shapes |
| ProtocolLedger.BytesConserved | pkg/server/server.go:205-312 | in every run, for every session: the bytes taken from its pipe are those written, in order, and those in its copy buffer, as many as counted plus buffered; the bytes fed are those taken and those in the pipe, but for what was in the pipe when it was closed |
| ProtocolLedger.StepGoesOn | pkg/server/server.go:98-328 | no step makes a session speak of another query, opens its pipe again, or revives its writer |
| ProtocolLedger.OthersUntouched | pkg/server/server.go:204-227 | no step touches a session it is not for: a chunk or a close goes to the client's current session, a writer's step to its own |
| ProtocolLedger.OthersStayActive | pkg/server/server.go:257-265 | which session is current for a client changes only with an answered query of that client |
| ProtocolLedger.RunStaysClosed | pkg/server/server.go:221-227 | after a close nothing is fed to the session and nothing taken, in any run |
| ProtocolLedger.StoppedWritesNothing | pkg/server/server.go:306-328 | a writer that has failed or ended reads and writes nothing more, in any run |
| ProtocolLedger.FailuresAreFree | pkg/server/server.go:221-328 | closes and queries at any time, a writer that fails before its end and leaves all files and records as they are, a connection that dies, a local copy that fails, any outcome of local calls: none is excluded |
| ProtocolLedger.CloseSparesRead | pkg/server/server.go:221-227 | a close at any moment: however the writer of a named file goes on, at the end of its copy the file is the old one with the whole copy buffer written at its position, and the recorded size is that position plus the buffer |
| ProtocolLedger.ClosedWriterFinishes | pkg/server/server.go:312-318 | and the writer can always go on to there |
| ProtocolQueries.AttemptsAreQueries | pkg/server/server.go:98-103 | after any run attempt i has the client and the path of the i-th query of the run |
| ProtocolQueries.OtherAttemptsStay | pkg/client/worker.go:40-153 | no step changes an attempt it is not of |
| ProtocolQueries.RemovalExact | pkg/server/server.go:105-112 | a removal takes the name away, leaves every other file, and leaves every session on the name as it was but for the name |
| ProtocolQueries.MissExact | pkg/server/server.go:102-142 | a first query fails iff a file in its way cannot be removed, and then nothing has changed, or a time has no text, and then only the file is gone |
| ProtocolQueries.MissStores | pkg/server/server.go:113-139 | an answered first query stores under its hash a text that decodes to its path, prefix, content length and times, these exchanged, and to size 0, and touches no other record |
| ProtocolQueries.HitExact | pkg/server/server.go:144-201 | a query whose hash is known fails iff the record does not decode, and then only that record is gone; otherwise it reports the file as it is, and changes nothing if that has the hash asked for |
| ProtocolQueries.HitPrimes | pkg/server/server.go:161-200 | with another hash it primes the client's session with the query's path, prefix and length, the client's time and the disk's, and touches no other session |
| ProtocolQueries.SessionsAreQueries | pkg/server/server.go:98-202 | in every run a session carries path, prefix, length, times and key of its own query, whatever else happens |
| ProtocolQueries.RecordOfItsQuery | pkg/server/server.go:318-326 | in every timely run the record a session stores at its end decodes to the values of its own query, times exchanged, and to the position its writer reached; it is stored iff those times have texts |
| ProtocolQueries.DatabaseExact | pkg/server/server.go:134-326 | after every timely run the text under a key is that of the last record the run stored there, or what was there at the start |
| ProtocolStreams.HomeDrained | pkg/client/worker.go:136-137 | a home stream that ended with everything sent, nothing of it on the way or lost, and whose open and still named session has written all it was given, has stored the whole content |
| ProtocolStreams.ShortStays | pkg/server/server.go:204-328 | a session that will be given too little never makes the file whole by its own steps |
| ProtocolStreams.HoleStays | pkg/server/server.go:283-312 | nor does one that passes over a byte of the content that is not zero |
| ProtocolStreams.Stores | pkg/server/server.go:204-328 | a session that will be given the rest in its place has a run of its own steps and its own chunks that stores the content |
| ProtocolStreams.UncutArrives | pkg/net/torrxferserverconnection.go:138-180 | a listening current session with an open pipe, of a stream that was not cut off, will be given all that is missing |
| ProtocolStreams.StreamEndExact | pkg/net/torrxferserverconnection.go:181-186 | a stream that ended with everything sent, over a file that is not whole: its own session and what is on the way can still store the content iff the session listens, no byte was dropped, and the first byte leaves no wrong gap |
| ProtocolStreams.TodayStreamEndExact | pkg/net/torrxferserverconnection.go:181-186 | for today's server this needs no check on deliveries |
| ProtocolProgress.StreamIsWritten | pkg/server/server.go:216-312 | any number of chunks sent, delivered, taken and written one after the other act as one write |
| ProtocolProgress.SessionRefinesRequests | pkg/server/server.go:204-328 | an undisturbed session in any state leaves what writing each request at its own offset leaves |
| ProtocolProgress.RequestsCarry | pkg/net/torrxferserverconnection.go:156-173 | the requests of a stream are contiguous and carry exactly the bytes read |
| ProtocolProgress.Transfers | pkg/client/worker.go:107-151 | a launched stream has a run after which the file is the old one with the rest of the content written over it |
| ProtocolProgress.AskAnswered | pkg/server/server.go:98-202 | from every sound state a query has a run in which it is answered and primes a session unless the file is there |
| ProtocolProgress.Decided | pkg/client/worker.go:53-113 | the job then is complete or streams with something left to send |
| ProtocolProgress.JobFinishes | pkg/client/worker.go:40-153 | over an unknown content, a prefix, or for today's server any file not longer than the content, a job finishes in a timely run that leaves every pending query pending |
| ProtocolProgress.EveryJobCanFinish | pkg/client/worker.go:40-153 | after every run whose writes land there is an aligned run after which the job is complete and the server has the content |
| ProtocolProgress.NeverShorter | pkg/server/server.go:283-312 | a known file without a pending first query never becomes shorter, in any timely run |
| ProtocolProgress.TodayFinishesExact | pkg/client/worker.go:40-153 | today's server, after any timely run at all on any disk: a job can still finish iff its content is unknown, or a first query is pending, or the file is not longer than the content |
| ProtocolCompletion.HashCompletionIsSound | pkg/client/worker.go:53-59 | today's server: whatever the initial disk and whatever the run, a job with something to transfer completes with its hash computed only over its whole content |
| ProtocolCompletion.StaleFalselyCompletes | pkg/client/worker.go:53-68 | on a disk the test cannot tell there is a run in which a job is declared complete over other bytes |
| ProtocolCompletion.CompletionDiskExact | pkg/client/worker.go:53-68 | per value of reportsSize: no aligned run ever completes a job falsely iff the initial disk is one the test can tell |
| ProtocolLimits.LostSignalIsForever | pkg/server/server.go:212-214 | a session whose first chunk came before its writer waited never writes, in any run |
| ProtocolLimits.FirstChunkDecides | pkg/server/server.go:295-298 | after its first chunk a session writes in some run iff its writer was already waiting |
| ProtocolLimits.DeafStreamCompletes | pkg/net/torrxferserverconnection.go:156-186 | for every content: a run in which everything is sent and completion reported while the server file is empty and its session can never write |
| ProtocolLimits.LostWireCompletes | pkg/net/torrxferserverconnection.go:135-186 | for every content: a run in which everything is sent and completion reported, and the connection dies before anything arrives |
| ProtocolLimits.FailedCopyCompletes | pkg/client/worker.go:142-148 | for every content: a run in which the local copy fails and completion is reported with nothing sent |
| ProtocolLimits.StaleStreamCorrupts | pkg/server/server.go:206-216 | a run of one client, one path and one retry whose older stream leaves a hole in the file |
| ProtocolLimits.TwoStreamsCorrupt | pkg/server/server.go:206-216 | a run of two attempts under one ID, aligned and safe up to the last delivery, in which a chunk sent to its own session is appended behind another stream's and corrupts the file |
| ProtocolLimits.LateMissLosesFile | pkg/server/server.go:102-112 | on any path not known at the start, a timely aligned run in which two queries miss, one job completes over its whole content, and the other query then removes it |
| ProtocolLimits.EpochLosesFile | pkg/server/server.go:153-159 | a record dated at the epoch is deleted by the next query and its file by the one after |
| ProtocolExample.WorldIsValid | pkg/server/server.go:98-103 | for any storable files there are a hash and a time format that meet the hypotheses, so no theorem here is empty |
| ProtocolExample.AnyFileCanBeStored | pkg/client/worker.go:40-153 | from the empty server there is a run under all hypotheses that stores any of the files |
| TransferServer.TorrxferServer.constructor | pkg/server/server.go:85-96 | a started server on a fine disk: the given disk and database, nothing in memory, every path safe |
| TransferServer.TorrxferServer.QueryFunction | pkg/server/server.go:99-202 | new state and reply are those of the protocol's query; an answered query that is unknown or finds another hash leaves the client's current session primed with its own path, hash, prefix and size; every path stays safe, and no other session is touched but for its file's name |
| TransferServer.TorrxferServer.AddFile | pkg/server/server.go:102-142 | the miss branch, with the removal and its failure, through the record object: the session carries the query's path, hash, prefix, size and both times, and the text stored under the hash is that of the query's record with size 0 reached |
| TransferServer.TorrxferServer.ContinueFile | pkg/server/server.go:145-201 | the hit branch, with the undecodable record, through the record object: a session is primed with the query's path, hash, prefix and size, the client's time and the file's |
| TransferServer.TorrxferServer.TransferFunction | pkg/server/server.go:205-218 | an accepted chunk reaches the current session and keeps every path safe; it fails iff there is no session |
| TransferServer.TorrxferServer.CloseActive | pkg/server/server.go:221-227 | the current session's pipe is closed and emptied, what its writer has read, its position and its count stay, no other session changes, every path stays safe |
| TransferServer.TorrxferServer.OpenSession | pkg/server/server.go:278-289 | the file exists afterwards, no file's bytes change, every path stays safe |
| TransferServer.TorrxferServer.SeekSession | pkg/server/server.go:300-311 | the handle stands at the recorded size, which is inside the file if there is anything to write |
| TransferServer.TorrxferServer.ReadSession | pkg/server/server.go:312 | k bytes move from the pipe to the copy buffer, and what is to be written is the content's own from the handle on |
| TransferServer.TorrxferServer.WriteSession | pkg/server/server.go:312 | the session's file grows inside its content, every other file stays as it is |
| TransferServer.TorrxferServer.FinishSession | pkg/server/server.go:318-327 | size counted and the session's own record stored with it, or the session fails without a record; every path stays safe |
| TransferServer.TorrxferServer.ReceiveStream | pkg/net/torrxferclientconnection.go:67-102 | the receive loop with its error and done channels and deferred close: how many requests it takes, when it fails, and that the file becomes what those requests make of it |
| TransferServer.QueryIsItsSteps | pkg/server/server.go:98-202 | an undisturbed query is its lookup and the rest of it, one step after the other |
| Dispatcher.TokenMoves | pkg/client/clientqueue.go:22-44 | every step moves each worker's queue along one path and from nowhere else |
| Dispatcher.StepKeepsTokens | pkg/client/clientqueue.go:22-44 | each queue stays in exactly one place and no step panics |
| Dispatcher.HolderIsReady | pkg/client/clientqueue.go:35-38 | a goroutine that holds a queue finds it open and its worker receiving |
| Dispatcher.CloserIsFresh | pkg/client/clientqueue.go:41-43 | the closing loop never closes a queue twice |
| Dispatcher.OfferNeverBlocks | pkg/client/worker.go:171-172 | the pool channel has room whenever a worker pushes |
| Dispatcher.StepKeepsJob | pkg/client/clientqueue.go:31-40 | no step loses or duplicates a copy of a job |
| Dispatcher.RunKeeps | pkg/client/clientqueue.go:22-44 | tokens, jobs and freedom from panics over every run |
| Dispatcher.PoolIsSafe | pkg/client/clientqueue.go:22-44 | for every interleaving from the start: one place per queue, no panic, conservation of jobs, no blocked send or push |
| Dispatcher.FirstComeFirstServed | pkg/client/clientqueue.go:31-40 | in every run jobs are handed off in the order they were submitted in |
| Dispatcher.RestExact | pkg/client/clientqueue.go:31-40 | at rest with an open queue, every submitted job has run or hangs iff some worker does not hang or no job waits |
| Dispatcher.RestMeansDone | pkg/client/clientqueue.go:31-40 | at rest with an open queue, every submitted job has run iff no worker hangs, and there is a worker or no job waits |
| Dispatcher.RestAfterShutdown | pkg/client/clientqueue.go:41-43 | at rest after shutdown all workers have returned or hang, and the jobs that have not run hang or wait in handoffs |
| Dispatcher.HungIsForever | pkg/client/worker.go:142-151 | a worker that hangs does so in every run |
| Dispatcher.NothingRunsAnyMore | pkg/client/worker.go:169-177 | once all workers hang, no job starts or finishes in any later run |
| Dispatcher.PoolCanStarve | pkg/net/torrxferserverconnection.go:124-133 | as many streams that cannot be opened as there are workers bring every pool to rest with a job that waits |
| Dispatcher.InternalStepsEnd | pkg/client/worker.go:169-183 | every internal step leaves less work |
| Dispatcher.InternalRunsAreBounded | pkg/client/worker.go:169-183 | so internal runs are no longer than the work at their start |
| Dispatcher.JobDispatcher.constructor | pkg/client/clientqueue.go:6-29 | all workers started, none has offered its queue |
| Dispatcher.JobDispatcher.SubmitJob | pkg/client/client.go:192 | the job joins the queue |
| Dispatcher.JobDispatcher.DispatchJob | pkg/client/clientqueue.go:32-39 | the first job gets a handoff goroutine |
| Dispatcher.JobDispatcher.LeaveDispatchLoop | pkg/client/clientqueue.go:40-41 | the closing loop begins once the queue is closed and empty |
| Dispatcher.JobDispatcher.FetchQueue | pkg/client/clientqueue.go:35 | a handoff takes the first queue of the pool |
| Dispatcher.JobDispatcher.SendJob | pkg/client/clientqueue.go:38 | the send is possible, and the worker runs the job |
| Dispatcher.JobDispatcher.CloseTurn | pkg/client/clientqueue.go:41-43 | one queue taken and closed, for the first time |
| Dispatcher.JobDispatcher.OfferQueue | pkg/client/worker.go:172 | the push is possible, and the worker receives |
| Dispatcher.JobDispatcher.FinishJob | pkg/client/worker.go:177 | the job is finished and the worker offers again |
| Dispatcher.JobDispatcher.HangJob | pkg/client/worker.go:142-151 | the worker stays with its job for good |
| Dispatcher.JobDispatcher.ExitWorker | pkg/client/worker.go:178-181 | a worker whose queue was closed returns |
| Watcher.AcceptKeeps | pkg/client/filewatcher.go:188-198 | taking an update keeps the handler's invariant, and sticks iff a timer function is already waiting |
| Watcher.StepKeepsInv | pkg/client/filewatcher.go:140-209 | every step of events, handlers, timers and clock keeps the invariant |
| Watcher.RunKeepsInv | pkg/client/filewatcher.go:140-209 | so does every run |
| Watcher.DeliveredExact | pkg/client/filewatcher.go:140-178 | in every run what a handler was given, and what waits to be given to it, are the files of the events of its path since its start, in order and unchanged |
| Watcher.NoticesAreEvents | pkg/client/filewatcher.go:186-202 | so a notice is about the file of an event of the run, unchanged: the last one its handler accepted |
| Watcher.DebounceSafe | pkg/client/filewatcher.go:156-209 | each notification carries the last accepted update, which is the file of one of the run's events, a full wait after it, once per handler; map entries and live handlers correspond one to one |
| Watcher.WakeDropsBuffered | pkg/client/filewatcher.go:199-202 | a notification drops exactly the updates still in the channel |
| Watcher.StuckIsForever | pkg/client/filewatcher.go:192-194 | a stuck handler keeps its path and never notifies, in any run |
| Watcher.StuckIsReachable | pkg/client/filewatcher.go:192-197 | two events of one file are enough to get there |
| Watcher.BlockedStopsAllPaths | pkg/client/filewatcher.go:171-175 | once the one event goroutine waits on the full channel of a stuck handler, no update of any path reaches a handler in any run, and no new path gets one |
| Watcher.StuckBlocks | pkg/client/filewatcher.go:171-175 | every stuck handler gets there after enough further events of its path |
| Watcher.BlockedIsReachable | pkg/client/filewatcher.go:171-197 | events of one file alone lead there from the start |
| Watcher.FileWatcher.constructor | pkg/client/filewatcher.go:42-48 | no handler, no entry |
| Watcher.FileWatcher.HandleFileEvent | pkg/client/filewatcher.go:156-175 | a handler is started the first time; the file itself ends up at the end of its handler's channel and of what it was given |
| Watcher.FileWatcher.TakeUpdate | pkg/client/filewatcher.go:188-198 | the update case of the handler's loop, stuck iff the timer function waits |
| Watcher.FileWatcher.NotifyFileAvailable | pkg/client/filewatcher.go:199-202 | the wait case is possible with a file, notifies and closes the channel |
| Watcher.FileWatcher.RemoveHandler | pkg/client/filewatcher.go:203-206 | the path leaves the map |
| Paths.CleanAbs | pkg/client/clientfile.go:67-74 | a rendered path is its own cleaned form |
| Paths.DirAndBase | pkg/client/clientfile.go:75 | directory and name of a file path |
| Paths.JoinRendered | pkg/server/server.go:269-271 | joining root, prefix and name gives the clean concatenation |
| Paths.MatchLiteral | pkg/common/path.go:15-16 | a plain pattern ended by a star matches exactly the extensions within one component |
| Paths.IsSubdirExact | pkg/common/path.go:10-18 | accepted are exactly the root and its direct children |
| Paths.PrefixOfFile | pkg/client/clientfile.go:66-81 | the prefix starts at a component boundary, and root, prefix and name rebuild the path |
| Paths.AcceptedIsBelow | pkg/client/filewatcher.go:39-41 | every file of an accepted directory is below the media root |
| Paths.ServerPathsKeepTree | pkg/server/server.go:269-271 | server paths keep the relative path and are equal iff the files are |
| Paths.PrefixTestAloneCollides | pkg/client/clientfile.go:76-80 | the textual prefix test alone lets a sibling directory collide with the media root's files; IsSubdir rejects it |

## Left out

- Stream.NormalEndCompletesFile: takes what was sent as written, as an uninterrupted session does; when the server
  can still get it is `ProtocolStreams.StreamEndExact`.
- ProtocolRuns.PrefixInvariantExact: exact in the initial disk, over aligned runs. What any other delivery does is
  `ProtocolRuns.FlushesExact`.
- ProtocolRuns.StepKeepsInv: steps that are aligned, for the same reason.
- ProtocolRuns.RunKeepsInv: aligned runs, for the same reason.
- ProtocolRuns.RunKeepsStrict: aligned runs; `ProtocolRuns.RunKeepsClean` has all runs whose writes land.
- ProtocolSafety.FeedFits: aligned chunks of the content's own bytes only, for the same reason.
- ProtocolCompletion.CompletionDiskExact: exact in the initial disk, over aligned runs; for today's server and a content
  that is not empty `ProtocolCompletion.HashCompletionIsSound` is about all runs.
- ProtocolSafety.MissKept: removal, put and priming of a query are one step here.
- ProtocolLedger.CloseSparesRead: after the close only the writer itself goes on; what it wrote beside others is
  `ProtocolLedger.BytesConserved`.
- Worker.ServerConnection.DoFileTransferJob: one undisturbed attempt; interleaved ones are in `Accounting`, whose history
  the object keeps.
- Worker.ServerConnection.ConsumeSummaries: no note of another attempt in between, for the same reason.
- TransferServer.TorrxferServer.constructor: a disk on which every path is fine; others are in the transition system.
- Watcher.FileWatcher.HandleFileEvent: an event whose send does not have to wait; the wait is the step Push.
- TransferServer.TorrxferServer.ReceiveStream: a stream that nothing disturbs: every request is taken and written before
  the next one, and its first one finds the writer waiting. All other interleavings are in the transition system.
- TransferServer.TorrxferServer.TransferFunction: the code takes any chunk; the object promises safety for accepted ones
  only. What other chunks do is `Protocol.Transfer` and `ProtocolRuns.FlushesExact`.
- Protocol.Ask: a query whose hash is known decodes, stats, hashes and primes in one step; Protocol.Miss: removal, put
  and priming are one step. Two misses between whose removals and puts other steps happen are not modelled.
- ProtocolProgress.EveryJobCanFinish: says that a finishing run exists, not that the scheduler takes it; its query is
  answered before the new writer thread creates the file.
- Watcher.StepKeepsInv: a send to a handler's channel that is closed, or closed while the event goroutine waits on it,
  panics in the code; such steps are excluded.
- Sessions are named by the number of their query where the code has object identity; a File is a record there.
- A write to a closed pipe is dropped whole. Closing while the writer has read part of a chunk drops the rest, as the
  code does.
- Blocking of notification channels and full subscriber channels.
- A stat that fails for another reason than absence: the code then does not remove the file (`pkg/server/server.go:106`).
- Two streams on one session inside TransferFunction: setting the offset and writing to the pipe are one step here.
- Flow control of a stream: any number of chunks can be on their way.
- Requeueing after the close of the job queue.
- Server restart: only its effect on memory (`ProtocolOutcomes.Restarted`), not the loss of unsynced writes.
- gRPC, TLS, compression and metadata: a stream delivers in order or is cut off.
- Times are instants: the location that Go compares along with them is ignored.
- SHA-256 and the text of times: parameters with the stated hypotheses. No real hash of fixed length is free of
  collisions; the hypotheses idealise it.
- internal/db: a map from key to text; compaction and its mutex are not part of the model.
- Client counters do not wrap; the server's recorded size does, in `Protocol.Counted`.
- Texts are sequences of characters; invalid UTF-8 and byte lengths are not distinguished.
- Pattern classes and escapes of filepath.Match, relative paths and symbolic links.
- The client's UnmarshalText: it demands six tokens and reads a seventh, so there is no round trip to state.
- Configuration, user interface, logging and command line: no hard properties.
