/** Bytes of a file on disk, positioned writes, and what a write session makes of a file. */
module FileBytes {
  import opened Wrappers

  newtype byte = x: int | 0 <= x < 256
  type Bytes = seq<byte>

  /** The larger of two lengths. */
  function Max(a: nat, b: nat): nat {
    if a < b then b else a
  }

  /** Bytes laid over a text from a position inside it or at its end. */
  function Overlay(f: Bytes, pos: nat, data: Bytes): (r: Bytes)
    requires pos <= |f|
    ensures |r| == Max(|f|, pos + |data|)
  {
    f[..pos] + data + if pos + |data| <= |f| then f[pos + |data|..] else []
  }

  /** A positioned write through an open handle: no truncation, and a write past the end leaves a hole of zeros. */
  function WriteAt(f: Bytes, pos: nat, data: Bytes): (r: Bytes)
    ensures |r| == if data == [] then |f| else Max(|f|, pos + |data|)
    ensures data != [] ==> r[pos..pos + |data|] == data
    ensures pos <= |f| ==> r[..pos] == f[..pos]
  {
    if data == [] then f else Overlay(if |f| < pos then f + seq(pos - |f|, i => 0 as byte) else f, pos, data)
  }

  lemma OverlayTwice(f: Bytes, pos: nat, a: Bytes, b: Bytes)
    requires pos <= |f|
    ensures Overlay(Overlay(f, pos, a), pos + |a|, b) == Overlay(f, pos, a + b)
  {
    var g := Overlay(f, pos, a);
    assert g[..pos + |a|] == f[..pos] + a;
    assert f[..pos] + a + b == f[..pos] + (a + b);
    if pos + |a| + |b| <= |f| {
      assert g[pos + |a|..] == f[pos + |a|..];
      assert g[pos + |a| + |b|..] == f[pos + |a + b|..];
    }
  }

  /** Writing two pieces one after the other is writing them at once. */
  lemma WriteAtTwice(f: Bytes, pos: nat, a: Bytes, b: Bytes)
    ensures WriteAt(WriteAt(f, pos, a), pos + |a|, b) == WriteAt(f, pos, a + b)
  {
    if a == [] {
      assert a + b == b;
    } else if b == [] {
      assert a + b == a;
    } else {
      OverlayTwice(if |f| < pos then f + seq(pos - |f|, i => 0 as byte) else f, pos, a, b);
    }
  }

  /** The same, the parts being given by name. */
  lemma WriteTwice(f: Bytes, pos: nat, a: Bytes, next: nat, b: Bytes, whole: Bytes) returns (first: Bytes, both: Bytes)
    requires next == pos + |a| && whole == a + b
    ensures first == WriteAt(f, pos, a) && both == WriteAt(f, pos, whole) && both == WriteAt(first, next, b)
  {
    first := WriteAt(f, pos, a);
    both := WriteAt(first, next, b);
    WriteAtTwice(f, pos, a, b);
  }

  /** Writing the right piece of c inside or at the end of a prefix of c leaves a prefix of c, never a shorter one. */
  lemma WriteKeepsPrefix(f: Bytes, c: Bytes, pos: nat, n: nat)
    requires f <= c && pos <= |f| && pos + n <= |c|
    ensures WriteAt(f, pos, c[pos..pos + n]) == c[..Max(|f|, pos + n)]
  {
    var data := c[pos..pos + n];
    var r := WriteAt(f, pos, data);
    if data != [] {
      forall i | 0 <= i < |r| ensures r[i] == c[i] {
        if i < pos {
          assert r[i] == r[..pos][i];
        } else if i < pos + n {
          assert r[i] == r[pos..pos + |data|][i - pos];
        }
      }
    }
  }

  // ----- bytes in their place -----

  /** The bytes d stand in c from `at` on. */
  predicate Segment(c: Bytes, at: nat, d: Bytes) {
    at + |d| <= |c| && c[at..at + |d|] == d
  }

  lemma SegmentTail(c: Bytes, at: nat, d: Bytes, k: nat)
    requires Segment(c, at, d) && k <= |d|
    ensures Segment(c, at, d[..k]) && Segment(c, at + k, d[k..])
  {
  }

  lemma SegmentConcat(c: Bytes, at: nat, a: Bytes, d: Bytes)
    requires Segment(c, at, a) && Segment(c, at + |a|, d)
    ensures Segment(c, at, a + d)
  {
    assert c[at..at + |a| + |d|] == c[at..at + |a|] + c[at + |a|..at + |a| + |d|];
  }

  /** What is written of the buffer, and what is left of buffer and pipe. */
  lemma SegmentFlush(c: Bytes, at: nat, buffer: Bytes, pipe: Bytes, k: nat)
    requires Segment(c, at, buffer + pipe) && k <= |buffer|
    ensures buffer[..k] == c[at..at + k] && Segment(c, at + k, buffer[k..] + pipe)
  {
    SegmentTail(c, at, buffer + pipe, k);
    assert (buffer + pipe)[..k] == buffer[..k];
    assert (buffer + pipe)[k..] == buffer[k..] + pipe;
  }

  /** Bytes land well when they are the content's own bytes there and a hole before them is all zeros in the content. */
  predicate Lands(c: Bytes, file: Bytes, at: nat, d: Bytes) {
    Segment(c, at, d) && forall k :: |file| <= k < at ==> c[k] == 0
  }

  /** A write keeps a prefix a prefix exactly when its bytes land well. */
  lemma PrefixAfterWrite(file: Bytes, at: nat, d: Bytes, c: Bytes)
    requires file <= c && d != []
    ensures WriteAt(file, at, d) <= c <==> Lands(c, file, at, d)
  {
    var r := WriteAt(file, at, d);
    assert r[at..at + |d|] == d;
    assert forall k :: 0 <= k < |file| && k < at ==> r[k] == file[k];
    assert forall k :: |file| <= k < at ==> r[k] == 0;
    assert forall k :: at + |d| <= k < |r| ==> r[k] == file[k];
    if r <= c {
      assert c[at..at + |d|] == r[at..at + |d|];
    }
    if Lands(c, file, at, d) {
      forall k | 0 <= k < |r| ensures r[k] == c[k] {
        if at <= k < at + |d| {
          assert r[k] == r[at..at + |d|][k - at];
        }
      }
    }
  }

  // ----- one request of the transfer stream -----

  /** A TransferFileRequest: its bytes and the offset its sender claims for them. */
  datatype Chunk = Chunk(offset: nat, data: Bytes)

  /** All bytes of a list of requests. */
  function Payload(chunks: seq<Chunk>): Bytes {
    if chunks == [] then [] else chunks[0].data + Payload(chunks[1..])
  }

  /** Every claimed offset is the start plus the sizes of all earlier chunks. */
  predicate Contiguous(start: nat, chunks: seq<Chunk>)
    decreases |chunks|
  {
    chunks == [] || (chunks[0].offset == start && Contiguous(start + |chunks[0].data|, chunks[1..]))
  }

  lemma PayloadAppend(chunks: seq<Chunk>, c: Chunk)
    ensures Payload(chunks + [c]) == Payload(chunks) + c.data
  {
    if chunks != [] {
      assert (chunks + [c])[1..] == chunks[1..] + [c];
      PayloadAppend(chunks[1..], c);
    }
  }

  lemma ContiguousAppend(start: nat, chunks: seq<Chunk>, c: Chunk)
    requires Contiguous(start, chunks) && c.offset == start + |Payload(chunks)|
    ensures Contiguous(start, chunks + [c])
    decreases |chunks|
  {
    if chunks != [] {
      assert (chunks + [c])[1..] == chunks[1..] + [c];
      ContiguousAppend(start + |chunks[0].data|, chunks[1..], c);
    }
  }

  // ----- what the server does with the requests -----

  /** The server's way: a position fixed once, every later chunk appended behind the previous one. */
  function AppendFrom(f: Bytes, pos: nat, chunks: seq<Chunk>): Bytes
    decreases |chunks|
  {
    if chunks == [] then f
    else AppendFrom(WriteAt(f, pos, chunks[0].data), pos + |chunks[0].data|, chunks[1..])
  }

  /** The session result: the first chunk's claimed offset is the only one the server looks at. */
  function SessionResult(f: Bytes, chunks: seq<Chunk>): Bytes {
    if chunks == [] then f else AppendFrom(f, chunks[0].offset, chunks)
  }

  /** The reference: every chunk is written at the offset it claims. */
  function WriteEach(f: Bytes, chunks: seq<Chunk>): Bytes
    decreases |chunks|
  {
    if chunks == [] then f else WriteEach(WriteAt(f, chunks[0].offset, chunks[0].data), chunks[1..])
  }

  lemma {:induction false} AppendIsOneWrite(f: Bytes, pos: nat, chunks: seq<Chunk>)
    ensures AppendFrom(f, pos, chunks) == WriteAt(f, pos, Payload(chunks))
    decreases |chunks|
  {
    if chunks != [] {
      AppendIsOneWrite(WriteAt(f, pos, chunks[0].data), pos + |chunks[0].data|, chunks[1..]);
      WriteAtTwice(f, pos, chunks[0].data, Payload(chunks[1..]));
    }
  }

  lemma {:induction false} AppendIsWriteEach(f: Bytes, pos: nat, chunks: seq<Chunk>)
    requires Contiguous(pos, chunks)
    ensures AppendFrom(f, pos, chunks) == WriteEach(f, chunks)
    decreases |chunks|
  {
    if chunks != [] {
      AppendIsWriteEach(WriteAt(f, pos, chunks[0].data), pos + |chunks[0].data|, chunks[1..]);
    }
  }

  /** "Set the offset once, then append" is "write every chunk at its own offset", for every contiguous stream. */
  lemma AppendRefinesOffsets(f: Bytes, start: nat, chunks: seq<Chunk>)
    requires Contiguous(start, chunks)
    ensures SessionResult(f, chunks) == WriteEach(f, chunks) == WriteAt(f, start, Payload(chunks))
  {
    if chunks != [] {
      AppendIsWriteEach(f, start, chunks);
      AppendIsOneWrite(f, start, chunks);
    }
  }

  /**
   * Why a chunk must claim the position it is written at: a chunk of c claimed for another one leaves a prefix of c for
   * every content c with that much behind both positions exactly when the two are equal.
   */
  lemma MisplacedChunk(claimed: nat, position: nat, n: nat)
    requires 0 < n
    ensures claimed == position <==>
            forall c: Bytes :: |c| == Max(claimed, position) + n ==>
              WriteAt(c[..position], position, c[claimed..claimed + n]) <= c
  {
    if claimed == position {
      forall c: Bytes | |c| == Max(claimed, position) + n ensures WriteAt(c[..position], position, c[claimed..claimed + n]) <= c {
        WriteKeepsPrefix(c[..position], c, position, n);
      }
    } else {
      var c := seq(Max(claimed, position) + n, i => if i == claimed then 1 as byte else 0 as byte);
      WrongByte(c, claimed, position, n);
    }
  }

  lemma WrongByte(c: Bytes, claimed: nat, position: nat, n: nat)
    requires 0 < n && claimed + n <= |c| && position + n <= |c| && c[claimed] != c[position]
    ensures !(WriteAt(c[..position], position, c[claimed..claimed + n]) <= c)
  {
    var r := WriteAt(c[..position], position, c[claimed..claimed + n]);
    assert r[position..position + n][0] == r[position];
  }

  /** Overwriting from o with content[o..] keeps old[..o] in front and old[|content|..] behind. */
  lemma TailWritten(old_: Bytes, content: Bytes, o: nat)
    requires o <= |old_| && o <= |content|
    ensures WriteAt(old_, o, content[o..]) ==
            old_[..o] + content[o..] + if |content| <= |old_| then old_[|content|..] else []
  {
    if content[o..] == [] {
      assert old_ == old_[..o] + old_[o..];
    }
  }

  /** When three parts in a row are the content. */
  lemma PartsEqual(content: Bytes, head: Bytes, tail: Bytes, o: nat)
    requires |head| == o <= |content|
    ensures head + content[o..] + tail == content <==> head == content[..o] && tail == []
  {
    var r := head + content[o..] + tail;
    assert r[..o] == head;
    assert content == content[..o] + content[o..];
  }

  /** An uninterrupted session that carries content[o..] into an old file, cut into chunks in any way. */
  lemma Splice(old_: Bytes, content: Bytes, o: nat, chunks: seq<Chunk>)
    requires o <= |old_| && o <= |content|
    requires Contiguous(o, chunks) && Payload(chunks) == content[o..]
    ensures SessionResult(old_, chunks) == old_[..o] + content[o..] + if |content| <= |old_| then old_[|content|..] else []
    ensures SessionResult(old_, chunks) == content <==> old_[..o] == content[..o] && |old_| <= |content|
  {
    AppendRefinesOffsets(old_, o, chunks);
    TailWritten(old_, content, o);
    PartsEqual(content, old_[..o], if |content| <= |old_| then old_[|content|..] else [], o);
  }

  /** The miss branch removes the old file, so a first transfer at offset 0 ends with exactly the content. */
  lemma FreshTransferIsExact(content: Bytes, chunks: seq<Chunk>)
    requires Contiguous(0, chunks) && Payload(chunks) == content
    ensures SessionResult([], chunks) == content
  {
    assert content[0..] == content;
    Splice([], content, 0, chunks);
  }

  /** Without the removal a longer old file keeps its tail, at every offset and for every cut of the stream. */
  lemma LongerFileNeverRepaired(old_: Bytes, content: Bytes, o: nat, chunks: seq<Chunk>)
    requires |content| < |old_| && o <= |content|
    requires Contiguous(o, chunks) && Payload(chunks) == content[o..]
    ensures SessionResult(old_, chunks) != content
    ensures |SessionResult(old_, chunks)| == |old_|
  {
    Splice(old_, content, o, chunks);
  }

  /**
   * The writer thread of one session, run without interruption: seek to the recorded offset, copy every read of the
   * pipe to the file, add the copied bytes to the recorded size.
   */
  method WriterThread(f: Bytes, currentSize: nat, copied: seq<Bytes>)
    returns (file: Bytes, position: nat, recorded: nat)
    ensures file == WriteAt(f, currentSize, Concat(copied))
    ensures position == recorded == currentSize + |Concat(copied)|
  {
    file, position := f, currentSize;
    var n := 0;
    for k := 0 to |copied|
      invariant file == WriteAt(f, currentSize, Concat(copied[..k]))
      invariant n == |Concat(copied[..k])| && position == currentSize + n
    {
      ConcatTake(copied, k);
      WriteAtTwice(f, currentSize, Concat(copied[..k]), copied[k]);
      file := WriteAt(file, position, copied[k]);
      position := position + |copied[k]|;
      n := n + |copied[k]|;
    }
    assert copied[..|copied|] == copied;
    recorded := currentSize + n;
  }
}
