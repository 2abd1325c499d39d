/** Byte chunks and the finite, single-pass asynchronous sequences that carry
    them. An `AsyncSeq` stands for an async iterable (or a native stream read
    with `for await`): it yields its items in order and then either reports
    `done` or throws. */
module Chunks {

  type Byte = bv8
  type Bytes = seq<Byte>
  type Chunk = Bytes

  /** A thrown JavaScript value, kept only so it can be passed on unchanged. */
  type Error = string

  datatype Option<T> = None | Some(value: T)

  datatype Result<T> = Ok(value: T) | Err(error: Error)

  /** How a sequence ends once its items are exhausted. */
  datatype End = Done | Throw(error: Error)

  datatype AsyncSeq<T> = AsyncSeq(items: seq<T>, end: End)

  type ChunkSeq = AsyncSeq<Chunk>

  /** The outcome of one call to the iterator's `next()`. */
  datatype Step<T> = Yield(value: T) | Finished | Thrown(error: Error)

  /** What the (i+1)-th call to `next()` produces. */
  function StepAt<T>(s: AsyncSeq<T>, i: nat): Step<T>
  {
    if i < |s.items| then Yield(s.items[i])
    else match s.end
      case Done => Finished
      case Throw(e) => Thrown(e)
  }

  /** The bytes of all chunks, one after another (what `Buffer.concat` builds). */
  function Concat(chunks: seq<Chunk>): Bytes
  {
    if chunks == [] then [] else chunks[0] + Concat(chunks[1..])
  }

  function SumLengths(chunks: seq<Chunk>): nat
  {
    if chunks == [] then 0 else |chunks[0]| + SumLengths(chunks[1..])
  }

  /** The concatenation is as long as all chunks together. */
  lemma {:induction false} ConcatLength(chunks: seq<Chunk>)
    ensures |Concat(chunks)| == SumLengths(chunks)
  {
    if chunks != [] {
      ConcatLength(chunks[1..]);
    }
  }

  /** Concatenation keeps the chunks in their original order: byte `j` of chunk
      `k` sits right after the bytes of the chunks before it. */
  lemma {:induction false} ConcatAt(chunks: seq<Chunk>, k: nat, j: nat)
    requires k < |chunks| && j < |chunks[k]|
    ensures SumLengths(chunks[..k]) + j < |Concat(chunks)|
    ensures Concat(chunks)[SumLengths(chunks[..k]) + j] == chunks[k][j]
  {
    ConcatLength(chunks);
    if k == 0 {
      assert chunks[..0] == [];
    } else {
      ConcatAt(chunks[1..], k - 1, j);
      assert chunks[1..][..k - 1] == chunks[..k][1..];
    }
  }

  /** A single chunk concatenates to itself. */
  lemma ConcatSingleton(c: Chunk)
    ensures Concat([c]) == c
  {
  }

  /** Appending one chunk appends its bytes. */
  lemma {:induction false} ConcatSnoc(chunks: seq<Chunk>, c: Chunk)
    ensures Concat(chunks + [c]) == Concat(chunks) + c
  {
    if chunks == [] {
      assert [c][1..] == [];
    } else {
      assert (chunks + [c])[1..] == chunks[1..] + [c];
      ConcatSnoc(chunks[1..], c);
    }
  }
}
