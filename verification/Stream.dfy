/** The client's stream: the loop that refills a block buffer and sends it, with its notifications. */
module Stream {
  import opened Wrappers
  import opened FileBytes

  datatype NoteKind = NoteError | NoteBytes | NoteClosed

  /** A FileTransferNotification: kind, bytes of the last block, and the stream's current offset. */
  datatype Note = Note(kind: NoteKind, lastTransferred: nat, currentOffset: nat)

  /** How the source of the bytes ends once every read has been served. */
  datatype Ending = EndOfFile | ReadFailure

  function Sum(ns: seq<nat>): nat {
    if ns == [] then 0 else ns[0] + Sum(ns[1..])
  }

  lemma SumTake(ns: seq<nat>, k: nat)
    requires k < |ns|
    ensures Sum(ns[..k + 1]) == Sum(ns[..k]) + ns[k] <= Sum(ns)
  {
    if k == 0 {
      assert ns[..1] == [ns[0]];
    } else {
      SumTake(ns[1..], k - 1);
      assert ns[..k + 1][1..] == ns[1..][..k];
      assert ns[..k][1..] == ns[1..][..k - 1];
    }
  }

  /** All bytes reported by byte notifications. */
  function BytesNoted(notes: seq<Note>): nat {
    if notes == [] then 0
    else BytesNoted(notes[..|notes| - 1]) + if notes[|notes| - 1].kind == NoteBytes then notes[|notes| - 1].lastTransferred else 0
  }

  /** At every notification the reported offset is the start plus every byte reported so far. */
  ghost predicate Tracks(start: nat, notes: seq<Note>) {
    forall k :: 0 <= k < |notes| ==> notes[k].currentOffset == start + BytesNoted(notes[..k + 1])
  }

  /** The stream has ended: exactly its last notification is an error or the closing one. */
  predicate Ended(notes: seq<Note>) {
    && notes != []
    && notes[|notes| - 1].kind != NoteBytes
    && forall k :: 0 <= k < |notes| - 1 ==> notes[k].kind == NoteBytes
  }

  lemma TracksAppend(start: nat, notes: seq<Note>, n: Note)
    requires Tracks(start, notes)
    requires n.currentOffset == start + BytesNoted(notes) + if n.kind == NoteBytes then n.lastTransferred else 0
    ensures Tracks(start, notes + [n])
  {
    var all := notes + [n];
    forall k | 0 <= k < |all| ensures all[k].currentOffset == start + BytesNoted(all[..k + 1]) {
      if k < |notes| {
        assert all[..k + 1] == notes[..k + 1];
      } else {
        assert all[..k + 1] == all;
        assert all[..|all| - 1] == notes;
      }
    }
  }

  /** The number of blocks a stream sends: all of them, or those before the send that fails. */
  function SentCount(cuts: seq<nat>, sendFailsAt: Option<nat>): nat {
    if sendFailsAt.Some? && sendFailsAt.value < |cuts| then sendFailsAt.value else |cuts|
  }

  /** Every block sent is noted, with its size and the offset behind it. */
  predicate Noted(sent: seq<Chunk>, notes: seq<Note>) {
    |notes| == |sent| && forall j :: 0 <= j < |sent| ==> notes[j] == NoteOf(sent[j])
  }

  function NoteOf(chunk: Chunk): Note {
    Note(NoteBytes, |chunk.data|, chunk.offset + |chunk.data|)
  }

  /** The blocks have the sizes that were read. */
  predicate InSizes(cuts: seq<nat>, sent: seq<Chunk>) {
    |sent| <= |cuts| && forall j :: 0 <= j < |sent| ==> |sent[j].data| == cuts[j]
  }

  /** What the loop keeps: the blocks sent so far are the first `done` bytes, contiguous from `offset`, in the sizes read, all noted. */
  ghost predicate SentSoFar(source: Bytes, cuts: seq<nat>, offset: nat, done: nat, sent: seq<Chunk>, notes: seq<Note>) {
    && done <= |source| && Payload(sent) == source[..done] && Contiguous(offset, sent)
    && InSizes(cuts, sent) && Noted(sent, notes)
  }

  lemma NothingSent(source: Bytes, cuts: seq<nat>, offset: nat)
    ensures SentSoFar(source, cuts, offset, 0, [], [])
  {
  }

  lemma SentOneMore(source: Bytes, cuts: seq<nat>, offset: nat, done: nat, sent: seq<Chunk>, notes: seq<Note>, n: nat,
                    more: seq<Chunk>, moreNotes: seq<Note>)
    requires SentSoFar(source, cuts, offset, done, sent, notes) && done + n <= |source|
    requires |sent| < |cuts| && n == cuts[|sent|]
    requires more == sent + [Chunk(offset + done, source[done..done + n])]
    requires moreNotes == notes + [Note(NoteBytes, n, offset + done + n)]
    ensures SentSoFar(source, cuts, offset, done + n, more, moreNotes)
  {
    assert source[..done] + source[done..done + n] == source[..done + n];
    PayloadAppend(sent, more[|sent|]);
    ContiguousAppend(offset, sent, more[|sent|]);
  }

  lemma {:induction false} LastOfStream(start: nat, chunks: seq<Chunk>)
    requires Contiguous(start, chunks) && chunks != []
    ensures var (init, last) := (chunks[..|chunks| - 1], chunks[|chunks| - 1]);
            Contiguous(start, init) && last.offset == start + |Payload(init)| && |Payload(chunks)| == |Payload(init)| + |last.data|
    decreases |chunks|
  {
    var init := chunks[..|chunks| - 1];
    if |chunks| > 1 {
      LastOfStream(start + |chunks[0].data|, chunks[1..]);
      assert chunks[1..][..|chunks| - 2] == init[1..];
    }
  }

  /** So the notifications track the stream's offset, and together report every byte. */
  lemma {:induction false} NotedTracks(offset: nat, sent: seq<Chunk>, notes: seq<Note>)
    requires Contiguous(offset, sent) && Noted(sent, notes)
    ensures Tracks(offset, notes) && BytesNoted(notes) == |Payload(sent)|
    decreases |sent|
  {
    if sent != [] {
      var k := |sent| - 1;
      LastOfStream(offset, sent);
      NotedTracks(offset, sent[..k], notes[..k]);
      assert notes == notes[..k] + [notes[k]];
      TracksAppend(offset, notes[..k], notes[k]);
    }
  }

  /** The last notification of the loop. */
  lemma EndNote(source: Bytes, cuts: seq<nat>, offset: nat, done: nat, sent: seq<Chunk>, notes: seq<Note>, last: Note, all: seq<Note>)
    requires SentSoFar(source, cuts, offset, done, sent, notes)
    requires last.kind != NoteBytes && last.currentOffset == offset + done && all == notes + [last]
    ensures Tracks(offset, all) && Ended(all) && BytesNoted(all) == |Payload(sent)| == done
    ensures |all| == |sent| + 1 && all[..|sent|] == notes && all[|all| - 1] == last
  {
    NotedTracks(offset, sent, notes);
    TracksAppend(offset, notes, last);
    assert all[..|notes|] == notes;
  }

  lemma StreamOver(source: Bytes, cuts: seq<nat>, blockSize: nat, offset: nat, sent: seq<Chunk>, notes: seq<Note>,
                   last: Note, all: seq<Note>)
    requires forall k :: 0 <= k < |cuts| ==> 0 < cuts[k] <= blockSize
    requires |sent| <= |cuts| && SentSoFar(source, cuts, offset, Sum(cuts[..|sent|]), sent, notes)
    requires last.kind != NoteBytes && last.currentOffset == offset + Sum(cuts[..|sent|]) && all == notes + [last]
    ensures forall k :: 0 <= k < |sent| ==> 0 < |sent[k].data| <= blockSize
    ensures Tracks(offset, all) && Ended(all) && BytesNoted(all) == |Payload(sent)| == Sum(cuts[..|sent|])
    ensures |all| > |sent| && Noted(sent, all[..|sent|]) && all[|all| - 1] == last
    ensures |sent| == |cuts| ==> |Payload(sent)| == Sum(cuts)
  {
    EndNote(source, cuts, offset, Sum(cuts[..|sent|]), sent, notes, last, all);
    if |sent| == |cuts| {
      assert cuts[..|sent|] == cuts;
    }
  }

  /** One read into the block buffer, and the slice of it that is sent. */
  method ReadBlock(source: Bytes, at: nat, n: nat, buffer: array<byte>) returns (data: Bytes)
    requires n <= buffer.Length && at + n <= |source|
    modifies buffer
    ensures data == source[at..at + n]
  {
    forall j | 0 <= j < n {
      buffer[j] := source[at + j];
    }
    data := buffer[..n];
  }

  /** The loop itself: blocks are sent until a read or a send fails or the source is exhausted. */
  method SendBlocks(source: Bytes, cuts: seq<nat>, blockSize: nat, offset: nat, sendFailsAt: Option<nat>)
    returns (sent: seq<Chunk>, notes: seq<Note>, currentOffset: nat, failed: bool)
    requires forall k :: 0 <= k < |cuts| ==> 0 < cuts[k] <= blockSize
    requires Sum(cuts) <= |source|
    ensures |sent| == SentCount(cuts, sendFailsAt) && currentOffset == offset + Sum(cuts[..|sent|])
    ensures SentSoFar(source, cuts, offset, Sum(cuts[..|sent|]), sent, notes)
    ensures failed <==> |sent| < |cuts|
  {
    sent, notes, currentOffset, failed := [], [], offset, false;
    NothingSent(source, cuts, offset);
    var buffer := new byte[blockSize];
    var k := 0;
    while k < |cuts|
      invariant 0 <= k == |sent| <= |cuts| && !failed
      invariant sendFailsAt.Some? ==> k <= sendFailsAt.value
      invariant currentOffset == offset + Sum(cuts[..k])
      invariant SentSoFar(source, cuts, offset, Sum(cuts[..k]), sent, notes)
    {
      SumTake(cuts, k);
      var n := cuts[k];
      var data := ReadBlock(source, currentOffset - offset, n, buffer);
      if sendFailsAt == Some(k) {
        failed := true;
        return;
      }
      ghost var (sentBefore, notesBefore) := (sent, notes);
      sent := sent + [Chunk(currentOffset, data)];
      currentOffset := currentOffset + n;
      notes := notes + [Note(NoteBytes, n, currentOffset)];
      SentOneMore(source, cuts, offset, Sum(cuts[..k]), sentBefore, notesBefore, n, sent, notes);
      k := k + 1;
    }
  }

  /**
   * TransferFile: read up to blockSize bytes, send them at the current offset, advance, notify. `cuts` are the sizes
   * the pipe's reads happen to return, `sendFailsAt` is the index of the send that fails, if one does.
   */
  method TransferFile(source: Bytes, cuts: seq<nat>, ending: Ending, blockSize: nat, offset: nat,
                      streamOpens: bool, sendFailsAt: Option<nat>)
    returns (sent: seq<Chunk>, notes: seq<Note>)
    requires forall k :: 0 <= k < |cuts| ==> 0 < cuts[k] <= blockSize
    requires Sum(cuts) <= |source|
    ensures Contiguous(offset, sent)
    ensures Payload(sent) <= source
    ensures forall k :: 0 <= k < |sent| ==> 0 < |sent[k].data| <= blockSize
    ensures Tracks(offset, notes) && Ended(notes) && BytesNoted(notes) == |Payload(sent)|
    ensures notes[|notes| - 1].currentOffset == offset + |Payload(sent)|
    ensures notes[|notes| - 1].kind == NoteClosed <==>
            streamOpens && ending == EndOfFile && (sendFailsAt == None || |cuts| <= sendFailsAt.value)
    ensures |sent| == if streamOpens then SentCount(cuts, sendFailsAt) else 0
    ensures InSizes(cuts, sent) && |notes| > |sent| && Noted(sent, notes[..|sent|])
    ensures |Payload(sent)| == Sum(cuts[..|sent|])
    ensures notes[|notes| - 1].kind == NoteClosed ==> |Payload(sent)| == Sum(cuts)
  {
    var currentOffset, failed;
    sent, notes, currentOffset, failed := OpenAndSend(source, cuts, blockSize, offset, streamOpens, sendFailsAt);
    ghost var loopNotes := notes;
    var last := Note(if failed || ending == ReadFailure then NoteError else NoteClosed, 0, currentOffset);
    notes := notes + [last];
    StreamOver(source, cuts, blockSize, offset, sent, loopNotes, last, notes);
  }

  /** The loop, if the stream opens; an error otherwise. */
  method OpenAndSend(source: Bytes, cuts: seq<nat>, blockSize: nat, offset: nat, streamOpens: bool, sendFailsAt: Option<nat>)
    returns (sent: seq<Chunk>, notes: seq<Note>, currentOffset: nat, failed: bool)
    requires forall k :: 0 <= k < |cuts| ==> 0 < cuts[k] <= blockSize
    requires Sum(cuts) <= |source|
    ensures |sent| == (if streamOpens then SentCount(cuts, sendFailsAt) else 0)
    ensures currentOffset == offset + Sum(cuts[..|sent|])
    ensures SentSoFar(source, cuts, offset, Sum(cuts[..|sent|]), sent, notes)
    ensures failed <==> !streamOpens || |sent| < |cuts|
  {
    if streamOpens {
      sent, notes, currentOffset, failed := SendBlocks(source, cuts, blockSize, offset, sendFailsAt);
    } else {
      NothingSent(source, cuts, offset);
      return [], [], offset, true;
    }
  }

  /**
   * Client and server together: a stream that ends normally after all of content[o..] was read makes of a server file
   * that agrees with the content up to o exactly the content, unless the file was longer.
   */
  lemma NormalEndCompletesFile(file: Bytes, content: Bytes, o: nat, sent: seq<Chunk>)
    requires o <= |file| && o <= |content| && file[..o] == content[..o]
    requires Contiguous(o, sent) && Payload(sent) == content[o..]
    ensures SessionResult(file, sent) == WriteEach(file, sent)
    ensures SessionResult(file, sent) == content <==> |file| <= |content|
  {
    Splice(file, content, o, sent);
    AppendRefinesOffsets(file, o, sent);
  }
}
