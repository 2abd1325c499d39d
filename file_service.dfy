/** The `upload` handler of the file service: it counts the messages of a
    client stream and the bytes they carry. */
module FileService {
  import opened Chunks

  datatype UploadRequest = UploadRequest(data: Bytes)

  /** `size` is a 64-bit integer in the message (a `bigint` in the handler);
      `chunks` a plain number. */
  datatype UploadResponse = UploadResponse(size: nat, chunks: nat)

  /** The number of data bytes in a run of messages. */
  function TotalSize(reqs: seq<UploadRequest>): nat
  {
    if reqs == [] then 0 else TotalSize(reqs[..|reqs| - 1]) + |reqs[|reqs| - 1].data|
  }

  /** `upload`: adds up `data.length` and counts messages over the stream; a
      fault raised by the stream propagates out of the handler. */
  method Upload(reqs: AsyncSeq<UploadRequest>) returns (r: Result<UploadResponse>)
    ensures r.Ok? <==> reqs.end.Done?
    ensures r.Err? ==> r.error == reqs.end.error
    ensures r.Ok? ==> r.value.size == TotalSize(reqs.items) && r.value.chunks == |reqs.items|
    ensures reqs == AsyncSeq([], Done) ==> r == Ok(UploadResponse(0, 0))
  {
    var size := 0;
    var chunks := 0;
    var step := StepAt(reqs, 0);
    while step.Yield?
      invariant chunks <= |reqs.items|
      invariant step == StepAt(reqs, chunks)
      invariant size == TotalSize(reqs.items[..chunks])
      decreases |reqs.items| - chunks
    {
      assert reqs.items[..chunks + 1][..chunks] == reqs.items[..chunks];
      size := size + |step.value.data|;
      chunks := chunks + 1;
      step := StepAt(reqs, chunks);
    }
    if step.Thrown? {
      return Err(step.error);
    }
    assert reqs.items[..chunks] == reqs.items;
    return Ok(UploadResponse(size, chunks));
  }

  /** The running total never decreases: a prefix of the stream carries at
      most as many bytes as a longer prefix. */
  lemma {:induction false} TotalSizeMonotone(reqs: seq<UploadRequest>, j: nat, k: nat)
    requires j <= k <= |reqs|
    ensures TotalSize(reqs[..j]) <= TotalSize(reqs[..k])
  {
    if j < k {
      TotalSizeMonotone(reqs, j, k - 1);
      assert reqs[..k][..k - 1] == reqs[..k - 1];
    }
  }

  /** The size reported is the length of all message data put together. */
  lemma {:induction false} TotalSizeIsConcatLength(reqs: seq<UploadRequest>)
    ensures TotalSize(reqs) == |Concat(Payloads(reqs))|
  {
    if reqs != [] {
      var init := reqs[..|reqs| - 1];
      var last := reqs[|reqs| - 1];
      TotalSizeIsConcatLength(init);
      assert Payloads(reqs) == Payloads(init) + [last.data];
      ConcatSnoc(Payloads(init), last.data);
    }
  }

  /** The `data` field of every message, in order. */
  function Payloads(reqs: seq<UploadRequest>): (ds: seq<Bytes>)
    ensures |ds| == |reqs| && forall i :: 0 <= i < |reqs| ==> ds[i] == reqs[i].data
  {
    seq(|reqs|, i requires 0 <= i < |reqs| => reqs[i].data)
  }
}
