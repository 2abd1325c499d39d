/** The streaming-mode decision policy of the Bun bridge: per request, whether
    the inbound body is forwarded as a stream or read into one buffer, and
    whether the outbound body is streamed or materialized. */
module Decision {

  /** The cardinality of an RPC method, as the route's descriptor gives it. */
  datatype MethodKind = Unary | ServerStreaming | ClientStreaming | BiDiStreaming

  /** The `content-length` header after `Number(...)`: missing, a number, or
      `NaN` for a header that does not parse. */
  datatype ContentLength = Absent | Num(value: int) | NaN

  /** Declared bodies strictly larger than 5 MiB are streamed. */
  const BIG_PAYLOAD_THRESHOLD: int := 5 * 1024 * 1024

  datatype StreamingDecision = StreamingDecision(useStreamInput: bool, useStreamOutput: bool)

  /** JavaScript's `>` on a number: every comparison with `NaN` is false. */
  function NumberGreaterThan(x: ContentLength, bound: int): bool
    requires !x.Absent?
  {
    match x
    case Num(n) => n > bound
    case NaN => false
  }

  /** A missing header, or a declared length above the threshold. A header
      that is present but not numeric is NOT big. */
  function IsBigPayload(header: ContentLength): (big: bool)
    ensures big <==> header.Absent? || (header.Num? && header.value > BIG_PAYLOAD_THRESHOLD)
  {
    var hasLength := !header.Absent?;
    !hasLength || NumberGreaterThan(header, BIG_PAYLOAD_THRESHOLD)
  }

  function Decide(kind: MethodKind, header: ContentLength): (d: StreamingDecision)
    ensures d.useStreamOutput <==> kind == ServerStreaming || kind == BiDiStreaming
    ensures d.useStreamInput <==>
      || kind == ClientStreaming
      || kind == BiDiStreaming
      || header == Absent
      || (header.Num? && header.value > BIG_PAYLOAD_THRESHOLD)
  {
    StreamingDecision(
      kind == ClientStreaming || kind == BiDiStreaming || IsBigPayload(header),
      kind == ServerStreaming || kind == BiDiStreaming)
  }

  /** The output mode depends on the method kind alone, never on the header. */
  lemma OutputModeIgnoresHeader(kind: MethodKind, h1: ContentLength, h2: ContentLength)
    ensures Decide(kind, h1).useStreamOutput == Decide(kind, h2).useStreamOutput
  {
  }

  /** Client- and bidi-streaming requests are always read as streams. */
  lemma StreamingKindsStreamInput(kind: MethodKind, header: ContentLength)
    requires kind == ClientStreaming || kind == BiDiStreaming
    ensures Decide(kind, header).useStreamInput
  {
  }

  /** For unary and server-streaming methods the input is buffered exactly when
      a header is present and is not a number above the threshold: a length of
      exactly 5 MiB is buffered, and so is a non-numeric header. */
  lemma UnaryBufferedWhenDeclaredSmall(kind: MethodKind, header: ContentLength)
    requires kind == Unary || kind == ServerStreaming
    ensures !Decide(kind, header).useStreamInput <==>
      header == NaN || (header.Num? && header.value <= BIG_PAYLOAD_THRESHOLD)
    ensures !Decide(kind, Num(BIG_PAYLOAD_THRESHOLD)).useStreamInput
    ensures Decide(kind, Num(BIG_PAYLOAD_THRESHOLD + 1)).useStreamInput
    ensures !Decide(kind, NaN).useStreamInput
    ensures Decide(kind, Absent).useStreamInput
  {
  }
}
