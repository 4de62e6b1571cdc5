/** The raw response produced by the transport, the disposable object that
    carries it, and the serializer contract both response factories decode
    with. */
module Messages {
  import opened Outcomes

  newtype byte = x: int | 0 <= x < 256

  type Bytes = seq<byte>

  /** Response headers; the header collection is passed through unchanged. */
  type Headers = map<string, string>

  /** The diagnostics handle is opaque to this layer. */
  datatype Diagnostics = Diagnostics(handle: nat)

  /** Whether the transport produced a `QueryResponse` (which carries query
      execution metadata) or a plain response message. */
  datatype Shape = PlainMessage | QueryMessage(queryInfo: nat)

  /** The immutable contents of a response: status, reason phrase, headers,
      optional body (`None` is a null content stream), diagnostics. */
  datatype RawResponse = RawResponse(
    status: int,
    reason: string,
    headers: Headers,
    content: Option<Bytes>,
    diagnostics: Diagnostics,
    shape: Shape)

  /** The success range 200..299 inclusive. */
  predicate IsSuccessStatus(status: int)
  {
    200 <= status < 300
  }

  /** A response object that owns a stream and must be disposed. The count
      records how often `Dispose` was called on it. */
  class Message {
    const raw: RawResponse
    var disposeCount: nat

    constructor (raw: RawResponse)
      ensures this.raw == raw && disposeCount == 0
    {
      this.raw := raw;
      disposeCount := 0;
    }

    method Dispose()
      modifies this`disposeCount
      ensures disposeCount == old(disposeCount) + 1
    {
      disposeCount := disposeCount + 1;
    }
  }

  /** What a serializer's `FromStream` yields: a value, or a decoding failure. */
  datatype Decoded<+D> = Decoded(value: D) | Malformed(detail: string)

  /** A serializer, seen through its decoding function. */
  datatype Serializer<D> = Serializer(fromStream: Bytes -> Decoded<D>)

  /** Decoding failures surface as `SerializationError`; they are never
      swallowed. */
  function DecodeWith<D>(s: Serializer<D>, body: Bytes): (r: Result<Option<D>>)
    ensures r.Ok? <==> s.fromStream(body).Decoded?
    ensures r.Ok? ==> r.value == Some(s.fromStream(body).value)
    ensures r.Err? ==> r.error == SerializationError(s.fromStream(body).detail)
  {
    match s.fromStream(body)
    case Decoded(v) => Ok(Some(v))
    case Malformed(d) => Err(SerializationError(d))
  }
}
