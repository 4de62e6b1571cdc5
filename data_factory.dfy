/** The response factory of the azuredata SDK. Same algorithm as the classic
    one, with the success gate written out: a status below 200 or at or above
    300 throws a `CosmosException` whose message names the status and the
    reason phrase. */
module DataResponseFactory {
  import opened Outcomes
  import opened Messages
  import Classic = ClassicResponseFactory

  /** The factory's two readonly serializer fields. */
  datatype ResponseFactory<D> = ResponseFactory(
    cosmosSerializer: Serializer<D>,
    propertiesSerializer: Serializer<D>)

  /** The constructor: the default serializer is kept for metadata, the user
      serializer for items. */
  function NewResponseFactory<D>(defaultJsonSerializer: Serializer<D>, userJsonSerializer: Serializer<D>): (f: ResponseFactory<D>)
    ensures f.propertiesSerializer == defaultJsonSerializer
    ensures f.cosmosSerializer == userJsonSerializer
  {
    ResponseFactory(userJsonSerializer, defaultJsonSerializer)
  }

  /** `Response<T>`: the original response together with the decoded value. */
  datatype TypedResponse<D> = TypedResponse(response: RawResponse, value: Option<D>)

  // ---------------------------------------------------------------------------
  // The exception message and its decimal status

  const MessagePrefix := "Response status code does not indicate success: "
  const ReasonOpen := " Reason: ("
  const ReasonClose := ")."

  predicate IsDigit(c: char)
  {
    '0' <= c <= '9'
  }

  predicate AllDigits(s: string)
  {
    forall i :: 0 <= i < |s| ==> IsDigit(s[i])
  }

  function DigitChar(d: nat): (c: char)
    requires d < 10
    ensures IsDigit(c) && c as int - '0' as int == d
  {
    ('0' as int + d) as char
  }

  /** Decimal rendering of a natural number, most significant digit first. */
  function NatToDecimal(n: nat): string
  {
    if n < 10 then [DigitChar(n)] else NatToDecimal(n / 10) + [DigitChar(n % 10)]
  }

  /** How string interpolation renders an `int`: a leading '-' for negatives. */
  function IntToDecimal(i: int): string
  {
    if i < 0 then "-" + NatToDecimal(-i) else NatToDecimal(i)
  }

  function DecimalToNat(s: string): nat
    requires AllDigits(s)
  {
    if s == [] then 0
    else DecimalToNat(s[..|s| - 1]) * 10 + (s[|s| - 1] as int - '0' as int)
  }

  /** Reads back a rendered `int`; `None` for anything that is not one. */
  function ParseInt(s: string): Option<int>
  {
    if |s| > 1 && s[0] == '-' && AllDigits(s[1..]) then Some(0 - DecimalToNat(s[1..]) as int)
    else if |s| > 0 && AllDigits(s) then Some(DecimalToNat(s))
    else None
  }

  lemma {:induction false} NatToDecimalRoundTrip(n: nat)
    ensures |NatToDecimal(n)| > 0 && AllDigits(NatToDecimal(n))
    ensures DecimalToNat(NatToDecimal(n)) == n
  {
    if n >= 10 {
      NatToDecimalRoundTrip(n / 10);
      var s := NatToDecimal(n);
      assert s[..|s| - 1] == NatToDecimal(n / 10);
    }
  }

  lemma IntToDecimalRoundTrip(i: int)
    ensures ParseInt(IntToDecimal(i)) == Some(i)
    ensures forall k :: 0 <= k < |IntToDecimal(i)| ==> IntToDecimal(i)[k] != ' '
  {
    if i < 0 {
      NatToDecimalRoundTrip(-i);
      assert IntToDecimal(i)[1..] == NatToDecimal(-i);
    } else {
      NatToDecimalRoundTrip(i);
    }
  }

  /** The text of the exception thrown for a non-success status. */
  function StatusMessage(status: int, reason: string): string
  {
    MessagePrefix + IntToDecimal(status) + ReasonOpen + reason + ReasonClose
  }

  /** Position of the first space, or the length when there is none. */
  function IndexOfSpace(s: string): (k: nat)
    ensures k <= |s|
    ensures forall i :: 0 <= i < k ==> s[i] != ' '
    ensures k < |s| ==> s[k] == ' '
  {
    if s == [] || s[0] == ' ' then 0 else 1 + IndexOfSpace(s[1..])
  }

  /** Recovers the status and the reason phrase from an exception message. */
  function ParseStatusMessage(msg: string): Option<(int, string)>
  {
    if |msg| < |MessagePrefix| || msg[..|MessagePrefix|] != MessagePrefix then None
    else
      var rest := msg[|MessagePrefix|..];
      var k := IndexOfSpace(rest);
      var tail := rest[k..];
      if |tail| < |ReasonOpen| + |ReasonClose|
         || tail[..|ReasonOpen|] != ReasonOpen
         || tail[|tail| - |ReasonClose|..] != ReasonClose
      then None
      else
        match ParseInt(rest[..k])
        case None => None
        case Some(status) => Some((status, tail[|ReasonOpen|..|tail| - |ReasonClose|]))
  }

  lemma SplitAt(a: string, b: string)
    ensures (a + b)[..|a|] == a && (a + b)[|a|..] == b
  {
  }

  /** The first space of `a + b` is where `b` starts when `a` has none and `b`
      starts with one. */
  lemma IndexOfSpaceAfter(a: string, b: string)
    requires forall k :: 0 <= k < |a| ==> a[k] != ' '
    requires |b| > 0 && b[0] == ' '
    ensures IndexOfSpace(a + b) == |a|
  {
    assert (a + b)[|a|] == ' ';
  }

  lemma ReasonFraming(reason: string)
    ensures var tail := ReasonOpen + reason + ReasonClose;
            |tail| >= |ReasonOpen| + |ReasonClose| &&
            tail[..|ReasonOpen|] == ReasonOpen &&
            tail[|tail| - |ReasonClose|..] == ReasonClose &&
            tail[|ReasonOpen|..|tail| - |ReasonClose|] == reason
  {
    var tail := ReasonOpen + reason + ReasonClose;
    assert tail == ReasonOpen + (reason + ReasonClose);
    SplitAt(ReasonOpen, reason + ReasonClose);
    assert tail[|tail| - |ReasonClose|..] == ReasonClose;
    assert tail[|ReasonOpen|..|tail| - |ReasonClose|] == reason;
  }

  /** The message states the exact status and reason phrase: both can be read
      back from it, whatever the reason phrase contains. */
  lemma StatusMessageRoundTrip(status: int, reason: string)
    ensures ParseStatusMessage(StatusMessage(status, reason)) == Some((status, reason))
  {
    var digits := IntToDecimal(status);
    var tail := ReasonOpen + reason + ReasonClose;
    var rest := digits + tail;
    var msg := StatusMessage(status, reason);
    assert msg == MessagePrefix + rest;
    SplitAt(MessagePrefix, rest);
    IntToDecimalRoundTrip(status);
    IndexOfSpaceAfter(digits, tail);
    SplitAt(digits, tail);
    ReasonFraming(reason);
  }

  // ---------------------------------------------------------------------------
  // Decoding

  /** `ToObjectInternalAsync`: the explicit 200..299 gate, then `default(T)`
      for a null content stream, else the serializer's decoding. */
  function ToObjectInternal<D>(response: RawResponse, jsonSerializer: Serializer<D>): (r: Result<Option<D>>)
    ensures (response.status < 200 || response.status >= 300) <==> r.Err? && r.error.CosmosException?
    ensures r.Err? && r.error.CosmosException? ==>
              r.error == CosmosException(response.status, response.reason, StatusMessage(response.status, response.reason))
    ensures r == Ok(None) <==> IsSuccessStatus(response.status) && response.content.None?
    ensures IsSuccessStatus(response.status) && response.content.Some? ==>
              r == DecodeWith(jsonSerializer, response.content.value)
  {
    if response.status < 200 || response.status >= 300 then
      var message := StatusMessage(response.status, response.reason);
      Err(CosmosException(response.status, response.reason, message))
    else if response.content.None? then
      Ok(None)
    else
      DecodeWith(jsonSerializer, response.content.value)
  }

  /** The gate's edges: 199 and 300 are rejected, 200 and 299 let through. */
  lemma GateBoundaries<D>(response: RawResponse, s: Serializer<D>)
    ensures response.status == 199 ==> ToObjectInternal(response, s).Err?
    ensures response.status == 300 ==> ToObjectInternal(response, s).Err?
    ensures response.status == 200 ==> !(ToObjectInternal(response, s).Err? && ToObjectInternal(response, s).error.CosmosException?)
    ensures response.status == 299 ==> !(ToObjectInternal(response, s).Err? && ToObjectInternal(response, s).error.CosmosException?)
  {
  }

  /** The exception message lets a caller recover the response's exact status
      and reason phrase. */
  lemma ExceptionMessageNamesStatus<D>(response: RawResponse, s: Serializer<D>)
    requires !IsSuccessStatus(response.status)
    ensures ToObjectInternal(response, s).Err?
    ensures ParseStatusMessage(ToObjectInternal(response, s).error.message) == Some((response.status, response.reason))
  {
    StatusMessageRoundTrip(response.status, response.reason);
  }

  /** The two SDKs decide alike: the classic gate and the explicit gate accept
      the same statuses, and on acceptance both decode to the same value. */
  lemma GatesAgree<D>(response: RawResponse, s: Serializer<D>)
    ensures ToObjectInternal(response, s).Ok? <==> Classic.ToObjectInternal(response, s).Ok?
    ensures IsSuccessStatus(response.status) ==> ToObjectInternal(response, s) == Classic.ToObjectInternal(response, s)
    ensures !IsSuccessStatus(response.status) ==>
              var e := ToObjectInternal(response, s).error;
              var c := Classic.ToObjectInternal(response, s).error;
              e.status == c.status && e.reason == c.reason
  {
  }

  /** The body of `CreateItemResponseAsync`'s lambda: decode with the user
      serializer and pair the original response with the value. */
  function ItemResponse<D>(f: ResponseFactory<D>, response: RawResponse): (r: Result<TypedResponse<D>>)
    ensures r.Ok? ==> IsSuccessStatus(response.status) && r.value.response == response
    ensures r.Ok? <==> ToObjectInternal(response, f.cosmosSerializer).Ok?
    ensures r.Err? ==> r.error == ToObjectInternal(response, f.cosmosSerializer).error
    ensures r.Ok? && response.content.Some? ==>
              r.value.value == Some(f.cosmosSerializer.fromStream(response.content.value).value)
    ensures r.Ok? && response.content.None? ==> r.value.value == None
  {
    match ToObjectInternal(response, f.cosmosSerializer)
    case Ok(item) => Ok(TypedResponse(response, item))
    case Err(e) => Err(e)
  }

  /** Items never depend on the properties serializer. */
  lemma ItemIgnoresPropertiesSerializer<D>(f: ResponseFactory<D>, g: ResponseFactory<D>, response: RawResponse)
    requires f.cosmosSerializer == g.cosmosSerializer
    ensures ItemResponse(f, response) == ItemResponse(g, response)
  {
  }

  /** `ProcessMessageAsync`: await the response, build the result from it and
      dispose the response exactly once on every exit path. */
  method ProcessMessage<R>(pending: Result<Message>, createResponse: RawResponse -> Result<R>) returns (r: Result<R>)
    modifies if pending.Ok? then {pending.value} else {}
    ensures pending.Err? ==> r == Err(pending.error)
    ensures pending.Ok? ==> r == createResponse(pending.value.raw)
    ensures pending.Ok? ==> pending.value.disposeCount == old(pending.value.disposeCount) + 1
  {
    match pending
    case Err(e) =>
      r := Err(e);
    case Ok(message) =>
      r := createResponse(message.raw);
      message.Dispose();
  }

  method CreateItemResponse<D>(f: ResponseFactory<D>, pending: Result<Message>) returns (r: Result<TypedResponse<D>>)
    modifies if pending.Ok? then {pending.value} else {}
    ensures pending.Err? ==> r == Err(pending.error)
    ensures pending.Ok? ==> r == ItemResponse(f, pending.value.raw)
    ensures pending.Ok? ==> pending.value.disposeCount == old(pending.value.disposeCount) + 1
  {
    r := ProcessMessage(pending, response => ItemResponse(f, response));
  }
}
