/** The chunk-sequence adapters of the Bun bridge: a buffer as a one-chunk
    sequence, a native stream as a sequence, a sequence as a native stream
    driven through its controller, and `materialize`, which drains a sequence
    into one buffer. */
module Adapters {
  import opened Chunks

  /** `bufferToIterable`: a generator that yields the buffer once and ends. */
  function BufferToIterable(chunk: Chunk): (r: ChunkSeq)
    ensures StepAt(r, 0) == Yield(chunk) && StepAt(r, 1) == Finished
  {
    AsyncSeq([chunk], Done)
  }

  /** What draining a sequence yields: all chunks concatenated, or the fault
      that ended it. */
  function Materialized(it: ChunkSeq): (r: Result<Bytes>)
    ensures r.Ok? <==> it.end.Done?
    ensures r.Err? ==> r.error == it.end.error
    ensures r.Ok? ==> |r.value| == SumLengths(it.items)
  {
    ConcatLength(it.items);
    match it.end
    case Done => Ok(Concat(it.items))
    case Throw(e) => Err(e)
  }

  /** `materialize`: zero chunks give an empty buffer, one chunk is returned as
      it is, and otherwise every chunk is collected and concatenated. A fault
      from any `next()` call propagates. */
  method Materialize(it: ChunkSeq) returns (r: Result<Bytes>)
    ensures r == Materialized(it)
    ensures it == AsyncSeq([], Done) ==> r == Ok([])
    ensures |it.items| == 1 && it.end.Done? ==> r == Ok(it.items[0])
  {
    var first := StepAt(it, 0);
    if first.Thrown? {
      return Err(first.error);
    }
    if first.Finished? {
      return Ok([]);
    }
    var second := StepAt(it, 1);
    if second.Thrown? {
      return Err(second.error);
    }
    if second.Finished? {
      assert it.items == [first.value];
      ConcatSingleton(first.value);
      return Ok(first.value);
    }
    var chunks := [first.value, second.value];
    var i := 2;
    var current := StepAt(it, i);
    while current.Yield?
      invariant 2 <= i <= |it.items|
      invariant chunks == it.items[..i]
      invariant current == StepAt(it, i)
      decreases |it.items| - i
    {
      chunks := chunks + [current.value];
      i := i + 1;
      current := StepAt(it, i);
    }
    if current.Thrown? {
      return Err(current.error);
    }
    assert chunks == it.items;
    return Ok(Concat(chunks));
  }

  /** Wrapping a buffer and materializing it gives back the same bytes. */
  lemma BufferRoundTrip(b: Bytes)
    ensures Materialized(BufferToIterable(b)) == Ok(b)
  {
    ConcatSingleton(b);
  }

  /** The state of a native `ReadableStream` as its controller sees it. */
  datatype StreamState =
    | Open(enqueued: seq<Chunk>)
    | Closed(enqueued: seq<Chunk>)
    | Errored(enqueued: seq<Chunk>, error: Error)

  /** A stream whose producer has finished: everything it will deliver is known. */
  type SettledStream = s: StreamState | !s.Open? witness Closed([])

  /** The controller operations; each may only be applied to an open stream. */
  function ControllerEnqueue(s: StreamState, chunk: Chunk): StreamState
    requires s.Open?
  {
    Open(s.enqueued + [chunk])
  }

  function ControllerClose(s: StreamState): StreamState
    requires s.Open?
  {
    Closed(s.enqueued)
  }

  function ControllerError(s: StreamState, e: Error): StreamState
    requires s.Open?
  {
    Errored(s.enqueued, e)
  }

  /** One call made on the controller, for the call log of `IterableToStream`. */
  datatype ControllerCall = EnqueueCall(chunk: Chunk) | CloseCall | ErrorCall(error: Error)

  /** The state in which `iterableToStream` leaves its stream. */
  function Settled(it: ChunkSeq): (s: SettledStream)
    ensures s.enqueued == it.items
    ensures s.Closed? <==> it.end.Done?
    ensures s.Errored? ==> s.error == it.end.error
  {
    match it.end
    case Done => Closed(it.items)
    case Throw(e) => Errored(it.items, e)
  }

  /** `iterableToStream`: the stream's `start` enqueues every chunk in order,
      then closes the controller once, or puts it into the error state when
      the iteration throws. Returns the final state and the calls made. */
  method IterableToStream(it: ChunkSeq) returns (s: StreamState, calls: seq<ControllerCall>)
    ensures s == Settled(it)
    ensures |calls| == |it.items| + 1
    ensures forall k :: 0 <= k < |it.items| ==> calls[k] == EnqueueCall(it.items[k])
    ensures calls[|it.items|] == if it.end.Done? then CloseCall else ErrorCall(it.end.error)
  {
    s := Open([]);
    calls := [];
    var i := 0;
    var step := StepAt(it, i);
    while step.Yield?
      invariant 0 <= i <= |it.items|
      invariant step == StepAt(it, i)
      invariant s == Open(it.items[..i])
      invariant |calls| == i
      invariant forall k :: 0 <= k < i ==> calls[k] == EnqueueCall(it.items[k])
      decreases |it.items| - i
    {
      s := ControllerEnqueue(s, step.value);
      calls := calls + [EnqueueCall(step.value)];
      i := i + 1;
      step := StepAt(it, i);
    }
    assert it.items[..i] == it.items;
    if step.Finished? {
      s := ControllerClose(s);
      calls := calls + [CloseCall];
    } else {
      s := ControllerError(s, step.error);
      calls := calls + [ErrorCall(step.error)];
    }
  }

  /** `streamToIterable`: `for await` over a settled native stream yields the
      enqueued chunks in order, then ends or rethrows the stream's error. For
      an errored stream, `enqueued` is read as the chunks its reader took
      before the error. */
  function StreamToIterable(s: SettledStream): (r: ChunkSeq)
    ensures forall i :: 0 <= i < |s.enqueued| ==> StepAt(r, i) == Yield(s.enqueued[i])
    ensures s.Closed? ==> StepAt(r, |s.enqueued|) == Finished
    ensures s.Errored? ==> StepAt(r, |s.enqueued|) == Thrown(s.error)
  {
    AsyncSeq(s.enqueued, if s.Closed? then Done else Throw(s.error))
  }

  /** The two stream adapters are inverse to each other: no chunk is added,
      dropped or merged, and the ending is kept, in either direction (for an
      errored stream, of the chunks read before the error). */
  lemma StreamRoundTrip(it: ChunkSeq, s: SettledStream)
    ensures StreamToIterable(Settled(it)) == it
    ensures Settled(StreamToIterable(s)) == s
  {
  }

  /** `req.arrayBuffer()`: all the bytes of a settled stream, or its error. */
  function ReadAll(s: SettledStream): (r: Result<Bytes>)
    ensures r == Materialized(StreamToIterable(s))
  {
    match s
    case Closed(chunks) => Ok(Concat(chunks))
    case Errored(_, e) => Err(e)
  }
}
