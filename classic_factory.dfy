/** The response factory of the classic SDK: it turns a raw response message
    into a typed response, choosing between the user serializer (items and
    stored-procedure execution results) and the properties serializer (every
    metadata resource), and disposes the message on every exit path. */
module ClassicResponseFactory {
  import opened Outcomes
  import opened Messages

  /** The two serializer roles. */
  datatype Role = PropertiesRole | UserRole

  /** The kinds of typed response the factory builds, one per `Create*` method. */
  datatype ResourceKind =
    | Item | Container | User | Permission | Database | Throughput
    | StoredProcedureExecute | StoredProcedure | Trigger | UserDefinedFunction

  /** The resource proxy object (container, user, permission, database) some
      typed responses carry beside the decoded properties. */
  datatype Proxy = Proxy(handle: nat)

  /** A typed response: status, headers and diagnostics of the message, the
      decoded resource (`None` is `default(T)`) and, for some kinds, the proxy. */
  datatype TypedResponse<D> = TypedResponse(
    kind: ResourceKind,
    status: int,
    headers: Headers,
    resource: Option<D>,
    proxy: Option<Proxy>,
    diagnostics: Diagnostics)

  /** The factory's two readonly serializer fields. */
  datatype ResponseFactory<D> = ResponseFactory(
    cosmosSerializer: Serializer<D>,
    propertiesSerializer: Serializer<D>)
  {
    function SerializerFor(role: Role): Serializer<D>
    {
      match role
      case PropertiesRole => propertiesSerializer
      case UserRole => cosmosSerializer
    }
  }

  /** The constructor: the default serializer plays the properties role and
      the user serializer the user role. */
  function NewResponseFactory<D>(defaultJsonSerializer: Serializer<D>, userJsonSerializer: Serializer<D>): (f: ResponseFactory<D>)
    ensures f.SerializerFor(PropertiesRole) == defaultJsonSerializer
    ensures f.SerializerFor(UserRole) == userJsonSerializer
  {
    ResponseFactory(userJsonSerializer, defaultJsonSerializer)
  }

  /** The role each `Create*` method hard-codes: the user serializer only for
      items and stored-procedure execution results. */
  function RoleOf(kind: ResourceKind): (role: Role)
    ensures role == UserRole <==> kind == Item || kind == StoredProcedureExecute
  {
    match kind
    case Item => UserRole
    case StoredProcedureExecute => UserRole
    case Container => PropertiesRole
    case User => PropertiesRole
    case Permission => PropertiesRole
    case Database => PropertiesRole
    case Throughput => PropertiesRole
    case StoredProcedure => PropertiesRole
    case Trigger => PropertiesRole
    case UserDefinedFunction => PropertiesRole
  }

  /** The success gate of `EnsureSuccessStatusCode`. */
  function EnsureSuccessStatusCode(m: RawResponse): (o: Outcome)
    ensures o.Pass? <==> IsSuccessStatus(m.status)
    ensures o.Fail? ==> o.error == StatusError(m.status, m.reason)
  {
    if IsSuccessStatus(m.status) then Pass else Fail(StatusError(m.status, m.reason))
  }

  /** Success gate, then `default(T)` for an absent body, else the given
      serializer's decoding of the body. */
  function ToObjectInternal<D>(m: RawResponse, jsonSerializer: Serializer<D>): (r: Result<Option<D>>)
    ensures !IsSuccessStatus(m.status) <==> r == Err(StatusError(m.status, m.reason))
    ensures r == Ok(None) <==> IsSuccessStatus(m.status) && m.content.None?
    ensures IsSuccessStatus(m.status) && m.content.Some? ==>
              r == DecodeWith(jsonSerializer, m.content.value)
  {
    match EnsureSuccessStatusCode(m)
    case Fail(e) => Err(e)
    case Pass =>
      if m.content.None? then Ok(None)
      else DecodeWith(jsonSerializer, m.content.value)
  }

  /** The body of every `Create*ResponseAsync` lambda: decode with the role of
      the kind and wrap the message's status, headers and diagnostics. */
  function Materialize<D>(f: ResponseFactory<D>, kind: ResourceKind, proxy: Option<Proxy>, m: RawResponse): (r: Result<TypedResponse<D>>)
    ensures !IsSuccessStatus(m.status) ==> r == Err(StatusError(m.status, m.reason))
    ensures IsSuccessStatus(m.status) && m.content.None? ==>
              r == Ok(TypedResponse(kind, m.status, m.headers, None, proxy, m.diagnostics))
    ensures IsSuccessStatus(m.status) && m.content.Some? ==>
              match f.SerializerFor(RoleOf(kind)).fromStream(m.content.value)
              case Decoded(v) => r == Ok(TypedResponse(kind, m.status, m.headers, Some(v), proxy, m.diagnostics))
              case Malformed(d) => r == Err(SerializationError(d))
  {
    match ToObjectInternal(m, f.SerializerFor(RoleOf(kind)))
    case Ok(v) => Ok(TypedResponse(kind, m.status, m.headers, v, proxy, m.diagnostics))
    case Err(e) => Err(e)
  }

  /** A typed response exists only for a success status, and carries the
      message's status, headers and diagnostics unchanged. */
  lemma TypedResponseCarriesMessage<D>(f: ResponseFactory<D>, kind: ResourceKind, proxy: Option<Proxy>, m: RawResponse)
    requires Materialize(f, kind, proxy, m).Ok?
    ensures IsSuccessStatus(m.status)
    ensures var t := Materialize(f, kind, proxy, m).value;
            t.kind == kind && t.status == m.status && t.headers == m.headers &&
            t.diagnostics == m.diagnostics && t.proxy == proxy
  {
  }

  /** A failing status gives the same error whatever the serializers are:
      no serializer is consulted before the gate. */
  lemma FailureIgnoresSerializers<D>(f: ResponseFactory<D>, g: ResponseFactory<D>, kind: ResourceKind, proxy: Option<Proxy>, m: RawResponse)
    requires !IsSuccessStatus(m.status)
    ensures Materialize(f, kind, proxy, m) == Materialize(g, kind, proxy, m)
    ensures Materialize(f, kind, proxy, m).Err? && Materialize(f, kind, proxy, m).error.StatusError?
  {
  }

  /** The two roles are observable: when the two serializers read the same
      body differently, an item response and a container response built from
      the same message hold different results. */
  lemma RolesAreDistinguishable<D>(f: ResponseFactory<D>, m: RawResponse)
    requires IsSuccessStatus(m.status) && m.content.Some?
    requires f.cosmosSerializer.fromStream(m.content.value) != f.propertiesSerializer.fromStream(m.content.value)
    ensures ToObjectInternal(m, f.SerializerFor(RoleOf(Item))) != ToObjectInternal(m, f.SerializerFor(RoleOf(Container)))
  {
    var body := m.content.value;
    var u, q := f.cosmosSerializer.fromStream(body), f.propertiesSerializer.fromStream(body);
    if u.Decoded? && q.Decoded? {
      assert u.value != q.value;
      assert Some(u.value) != Some(q.value);
    }
  }

  /** `ProcessMessageAsync`: await the message, build the response from it,
      and dispose it exactly once whichever way `createResponse` ends. A
      faulted task yields its error and there is nothing to dispose. */
  method ProcessMessage<R>(pending: Result<Message>, createResponse: RawResponse -> Result<R>) returns (r: Result<R>)
    modifies if pending.Ok? then {pending.value} else {}
    ensures pending.Err? ==> r == Err(pending.error)
    ensures pending.Ok? ==> r == createResponse(pending.value.raw)
    ensures pending.Ok? ==> pending.value.disposeCount == old(pending.value.disposeCount) + 1
  {
    match pending
    case Err(e) =>
      r := Err(e);
    case Ok(message) =>
      r := createResponse(message.raw);
      message.Dispose();
  }

  method CreateItemResponse<D>(f: ResponseFactory<D>, pending: Result<Message>) returns (r: Result<TypedResponse<D>>)
    modifies if pending.Ok? then {pending.value} else {}
    ensures pending.Err? ==> r == Err(pending.error)
    ensures pending.Ok? ==> r == Materialize(f, Item, None, pending.value.raw)
    ensures pending.Ok? ==> pending.value.disposeCount == old(pending.value.disposeCount) + 1
  {
    r := ProcessMessage(pending, m => Materialize(f, Item, None, m));
  }

  method CreateContainerResponse<D>(f: ResponseFactory<D>, container: Proxy, pending: Result<Message>) returns (r: Result<TypedResponse<D>>)
    modifies if pending.Ok? then {pending.value} else {}
    ensures pending.Err? ==> r == Err(pending.error)
    ensures pending.Ok? ==> r == Materialize(f, Container, Some(container), pending.value.raw)
    ensures pending.Ok? ==> pending.value.disposeCount == old(pending.value.disposeCount) + 1
  {
    r := ProcessMessage(pending, m => Materialize(f, Container, Some(container), m));
  }

  method CreateUserResponse<D>(f: ResponseFactory<D>, user: Proxy, pending: Result<Message>) returns (r: Result<TypedResponse<D>>)
    modifies if pending.Ok? then {pending.value} else {}
    ensures pending.Err? ==> r == Err(pending.error)
    ensures pending.Ok? ==> r == Materialize(f, User, Some(user), pending.value.raw)
    ensures pending.Ok? ==> pending.value.disposeCount == old(pending.value.disposeCount) + 1
  {
    r := ProcessMessage(pending, m => Materialize(f, User, Some(user), m));
  }

  method CreatePermissionResponse<D>(f: ResponseFactory<D>, permission: Proxy, pending: Result<Message>) returns (r: Result<TypedResponse<D>>)
    modifies if pending.Ok? then {pending.value} else {}
    ensures pending.Err? ==> r == Err(pending.error)
    ensures pending.Ok? ==> r == Materialize(f, Permission, Some(permission), pending.value.raw)
    ensures pending.Ok? ==> pending.value.disposeCount == old(pending.value.disposeCount) + 1
  {
    r := ProcessMessage(pending, m => Materialize(f, Permission, Some(permission), m));
  }

  method CreateDatabaseResponse<D>(f: ResponseFactory<D>, database: Proxy, pending: Result<Message>) returns (r: Result<TypedResponse<D>>)
    modifies if pending.Ok? then {pending.value} else {}
    ensures pending.Err? ==> r == Err(pending.error)
    ensures pending.Ok? ==> r == Materialize(f, Database, Some(database), pending.value.raw)
    ensures pending.Ok? ==> pending.value.disposeCount == old(pending.value.disposeCount) + 1
  {
    r := ProcessMessage(pending, m => Materialize(f, Database, Some(database), m));
  }

  method CreateThroughputResponse<D>(f: ResponseFactory<D>, pending: Result<Message>) returns (r: Result<TypedResponse<D>>)
    modifies if pending.Ok? then {pending.value} else {}
    ensures pending.Err? ==> r == Err(pending.error)
    ensures pending.Ok? ==> r == Materialize(f, Throughput, None, pending.value.raw)
    ensures pending.Ok? ==> pending.value.disposeCount == old(pending.value.disposeCount) + 1
  {
    r := ProcessMessage(pending, m => Materialize(f, Throughput, None, m));
  }

  method CreateStoredProcedureExecuteResponse<D>(f: ResponseFactory<D>, pending: Result<Message>) returns (r: Result<TypedResponse<D>>)
    modifies if pending.Ok? then {pending.value} else {}
    ensures pending.Err? ==> r == Err(pending.error)
    ensures pending.Ok? ==> r == Materialize(f, StoredProcedureExecute, None, pending.value.raw)
    ensures pending.Ok? ==> pending.value.disposeCount == old(pending.value.disposeCount) + 1
  {
    r := ProcessMessage(pending, m => Materialize(f, StoredProcedureExecute, None, m));
  }

  method CreateStoredProcedureResponse<D>(f: ResponseFactory<D>, pending: Result<Message>) returns (r: Result<TypedResponse<D>>)
    modifies if pending.Ok? then {pending.value} else {}
    ensures pending.Err? ==> r == Err(pending.error)
    ensures pending.Ok? ==> r == Materialize(f, StoredProcedure, None, pending.value.raw)
    ensures pending.Ok? ==> pending.value.disposeCount == old(pending.value.disposeCount) + 1
  {
    r := ProcessMessage(pending, m => Materialize(f, StoredProcedure, None, m));
  }

  method CreateTriggerResponse<D>(f: ResponseFactory<D>, pending: Result<Message>) returns (r: Result<TypedResponse<D>>)
    modifies if pending.Ok? then {pending.value} else {}
    ensures pending.Err? ==> r == Err(pending.error)
    ensures pending.Ok? ==> r == Materialize(f, Trigger, None, pending.value.raw)
    ensures pending.Ok? ==> pending.value.disposeCount == old(pending.value.disposeCount) + 1
  {
    r := ProcessMessage(pending, m => Materialize(f, Trigger, None, m));
  }

  method CreateUserDefinedFunctionResponse<D>(f: ResponseFactory<D>, pending: Result<Message>) returns (r: Result<TypedResponse<D>>)
    modifies if pending.Ok? then {pending.value} else {}
    ensures pending.Err? ==> r == Err(pending.error)
    ensures pending.Ok? ==> r == Materialize(f, UserDefinedFunction, None, pending.value.raw)
    ensures pending.Ok? ==> pending.value.disposeCount == old(pending.value.disposeCount) + 1
  {
    r := ProcessMessage(pending, m => Materialize(f, UserDefinedFunction, None, m));
  }

  /** The two page builders the feed path hands over to, which live outside
      the factory: `QueryResponse<T>.CreateResponse` and
      `ReadFeedResponse<T>.CreateResponse`. */
  datatype FeedBuilders<!D, F> = FeedBuilders(
    queryResponse: (RawResponse, Serializer<D>) -> Result<F>,
    readFeedResponse: (RawResponse, Serializer<D>) -> Result<F>)

  /** The feed path: success gate first, then the serializer the flag picks,
      then the query builder for a query message and the read-feed builder
      for any other message. */
  function CreateQueryFeedResponseHelper<D, F>(f: ResponseFactory<D>, builders: FeedBuilders<D, F>, m: RawResponse, usePropertySerializer: bool): (r: Result<F>)
    ensures !IsSuccessStatus(m.status) ==> r == Err(StatusError(m.status, m.reason))
    ensures IsSuccessStatus(m.status) && m.shape.QueryMessage? ==>
              r == builders.queryResponse(m, f.SerializerFor(if usePropertySerializer then PropertiesRole else UserRole))
    ensures IsSuccessStatus(m.status) && m.shape.PlainMessage? ==>
              r == builders.readFeedResponse(m, f.SerializerFor(if usePropertySerializer then PropertiesRole else UserRole))
  {
    match EnsureSuccessStatusCode(m)
    case Fail(e) => Err(e)
    case Pass =>
      var serializer := if usePropertySerializer then f.propertiesSerializer else f.cosmosSerializer;
      match m.shape
      case QueryMessage(_) => builders.queryResponse(m, serializer)
      case PlainMessage => builders.readFeedResponse(m, serializer)
  }

  function CreateQueryFeedResponseWithPropertySerializer<D, F>(f: ResponseFactory<D>, builders: FeedBuilders<D, F>, m: RawResponse): (r: Result<F>)
    ensures !IsSuccessStatus(m.status) ==> r == Err(StatusError(m.status, m.reason))
    ensures IsSuccessStatus(m.status) && m.shape.QueryMessage? ==> r == builders.queryResponse(m, f.propertiesSerializer)
    ensures IsSuccessStatus(m.status) && m.shape.PlainMessage? ==> r == builders.readFeedResponse(m, f.propertiesSerializer)
  {
    CreateQueryFeedResponseHelper(f, builders, m, true)
  }

  function CreateQueryFeedResponse<D, F>(f: ResponseFactory<D>, builders: FeedBuilders<D, F>, m: RawResponse): (r: Result<F>)
    ensures !IsSuccessStatus(m.status) ==> r == Err(StatusError(m.status, m.reason))
    ensures IsSuccessStatus(m.status) && m.shape.QueryMessage? ==> r == builders.queryResponse(m, f.cosmosSerializer)
    ensures IsSuccessStatus(m.status) && m.shape.PlainMessage? ==> r == builders.readFeedResponse(m, f.cosmosSerializer)
  {
    CreateQueryFeedResponseHelper(f, builders, m, false)
  }

  /** Feeds over metadata cannot be affected by a custom user serializer: two
      factories that share the properties serializer give the same page. */
  lemma PropertyFeedIgnoresUserSerializer<D, F>(f: ResponseFactory<D>, g: ResponseFactory<D>, builders: FeedBuilders<D, F>, m: RawResponse)
    requires f.propertiesSerializer == g.propertiesSerializer
    ensures CreateQueryFeedResponseWithPropertySerializer(f, builders, m) == CreateQueryFeedResponseWithPropertySerializer(g, builders, m)
  {
  }
}
