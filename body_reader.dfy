/** What readResponseBody delivers for a scripted response stream. The loop
    itself is the method BaseTask.ReadResponseBody; this module is its
    specification and the properties of that specification. */
module BodyReader {
  import opened Types

  /** Size of the buffer handed to each `read` (BUFFER_SIZE). */
  const BufferSize: nat := 8192

  /** Once more than this many bytes were buffered since the last flush, the
      output buffer is flushed and the counter restarts. */
  const FlushThreshold: nat := 1024 * 1024

  datatype ReadOutcome = Body(bytes: seq<byte>) | Thrown(exception: Exception)

  /** The bytes of `chunks`, in the order they were read. */
  function Concat(chunks: seq<Chunk>): seq<byte>
  {
    if chunks == [] then [] else Concat(chunks[..|chunks| - 1]) + chunks[|chunks| - 1].data
  }

  /** Some read before the end of the stream saw the cancellation flag set. */
  predicate CancelSeen(chunks: seq<Chunk>)
  {
    exists i :: 0 <= i < |chunks| && chunks[i].cancelled
  }

  /** readResponseBody, stated without its loop: a null stream throws on the
      first `read`; a cancellation seen after any read throws; an IOException
      from `read` throws; otherwise the body is every byte read, in order. */
  function ReadBody(s: InputStream): (r: ReadOutcome)
  {
    match s
    case NullStream => Thrown(NullPointer)
    case Stream(chunks, end) =>
      if CancelSeen(chunks) then Thrown(TaskCancelled)
      else if end == ReadFails then Thrown(ReadFailure)
      else Body(Concat(chunks))
  }

  lemma {:induction false} ConcatLength(chunks: seq<Chunk>)
    ensures |Concat(chunks)| == Length(chunks)
  {
    if chunks != [] {
      ConcatLength(chunks[..|chunks| - 1]);
      LengthLast(chunks);
    }
  }

  /** Total number of bytes returned by `chunks`, counted from the front. */
  function Length(chunks: seq<Chunk>): nat
  {
    if chunks == [] then 0 else |chunks[0].data| + Length(chunks[1..])
  }

  lemma {:induction false} LengthLast(chunks: seq<Chunk>)
    requires chunks != []
    ensures Length(chunks) == Length(chunks[..|chunks| - 1]) + |chunks[|chunks| - 1].data|
  {
    if |chunks| > 1 {
      assert chunks[1..][..|chunks[1..]| - 1] == chunks[..|chunks| - 1][1..];
      LengthLast(chunks[1..]);
    }
  }

  /** Concatenating two runs of chunks gives the bytes of the first, then those of the second. */
  lemma {:induction false} ConcatAppend(a: seq<Chunk>, b: seq<Chunk>)
    ensures Concat(a + b) == Concat(a) + Concat(b)
  {
    if b == [] {
      assert a + b == a;
    } else {
      assert (a + b)[..|a + b| - 1] == a + b[..|b| - 1];
      ConcatAppend(a, b[..|b| - 1]);
    }
  }

  /** A body is delivered exactly when the stream is not null, ends normally and
      no read saw the cancellation flag; it then holds every byte read, in order,
      and its length is the sum of the lengths of the chunks. */
  lemma BodyDeliveredIff(s: InputStream)
    ensures ReadBody(s).Body? <==> s.Stream? && s.end == EndOfStream && !CancelSeen(s.chunks)
    ensures ReadBody(s).Body? ==>
              ReadBody(s).bytes == Concat(s.chunks) && |ReadBody(s).bytes| == Length(s.chunks)
  {
    if s.Stream? { ConcatLength(s.chunks); }
  }

  /** Cancellation wins over a later IOException and discards everything read
      so far, the read that observed it included: nothing partial is delivered. */
  lemma CancellationDiscards(chunks: seq<Chunk>, end: StreamEnd, i: nat)
    requires i < |chunks| && chunks[i].cancelled
    ensures ReadBody(Stream(chunks, end)) == Thrown(TaskCancelled)
  {
  }

  /** Reading further without cancellation only extends the body: what a
      shorter stream delivers is a prefix of what the longer one delivers. */
  lemma {:induction false} BodyExtends(chunks: seq<Chunk>, more: seq<Chunk>)
    requires !CancelSeen(chunks + more)
    ensures ReadBody(Stream(chunks, EndOfStream)).Body?
    ensures ReadBody(Stream(chunks + more, EndOfStream)).Body?
    ensures ReadBody(Stream(chunks + more, EndOfStream)).bytes
         == ReadBody(Stream(chunks, EndOfStream)).bytes + Concat(more)
  {
    assert !CancelSeen(chunks) by {
      forall i | 0 <= i < |chunks| ensures !chunks[i].cancelled {
        assert chunks[i] == (chunks + more)[i];
      }
    }
    ConcatAppend(chunks, more);
  }
}
