/** The client-side state of `CosmosClient` in the azuredata SDK: the lazily
    memoized account consistency level, idempotent disposal of the document
    client, and the argument checks the client performs before any request. */
module Client {
  import opened Outcomes
  import opened Messages

  datatype ConsistencyLevel = Strong | BoundedStaleness | Session | Eventual | ConsistentPrefix

  datatype WebProxy = WebProxy(address: string)

  /** The client options, reduced to the setting this layer reads. */
  datatype ClientOptions = ClientOptions(webProxy: Option<WebProxy>)

  /** `new CosmosClientOptions()`: no proxy configured. */
  const DefaultClientOptions := ClientOptions(None)

  datatype HttpClientHandler = HttpClientHandler(proxy: WebProxy)

  /** A handler is built only when options with a proxy are given, and then
      it routes through exactly that proxy. */
  function CreateHttpClientHandler(clientOptions: Option<ClientOptions>): (h: Option<HttpClientHandler>)
    ensures h.None? <==> clientOptions.None? || clientOptions.value.webProxy.None?
    ensures h.Some? ==> h.value.proxy == clientOptions.value.webProxy.value
  {
    if clientOptions.None? || clientOptions.value.webProxy.None? then None
    else Some(HttpClientHandler(clientOptions.value.webProxy.value))
  }

  // ---------------------------------------------------------------------------
  // The consistency cache, as a specification over sequential calls

  /** The state after one call: the memo, what the call returned, and whether
      it went to the service. */
  datatype Lookup = Lookup(cached: Option<ConsistencyLevel>, result: Result<ConsistencyLevel>, fetched: bool)

  /** One call of `GetAccountConsistencyLevelAsync` given the memo and what the
      service would answer: a memoized value is returned without a fetch;
      otherwise the service is asked once and a successful answer memoized. A
      failed fetch leaves the memo empty. */
  function LookupConsistency(cached: Option<ConsistencyLevel>, reply: Result<ConsistencyLevel>): (l: Lookup)
    ensures l.fetched <==> cached.None?
    ensures cached.Some? ==> l.result == Ok(cached.value) && l.cached == cached
    ensures cached.None? ==> l.result == reply
    ensures l.cached.Some? <==> cached.Some? || reply.Ok?
    ensures cached.None? && reply.Ok? ==> l.cached == Some(reply.value)
  {
    if cached.Some? then Lookup(cached, Ok(cached.value), false)
    else if reply.Ok? then Lookup(Some(reply.value), reply, true)
    else Lookup(None, reply, true)
  }

  /** The outcome of several calls in a row. */
  datatype Run = Run(cached: Option<ConsistencyLevel>, results: seq<Result<ConsistencyLevel>>, fetches: nat)

  /** Sequential calls; `replies[i]` is what the service would answer at the
      i-th call if that call fetched. */
  function LookupMany(cached: Option<ConsistencyLevel>, replies: seq<Result<ConsistencyLevel>>): (run: Run)
    ensures |run.results| == |replies|
    ensures run.fetches <= |replies|
    decreases |replies|
  {
    if replies == [] then Run(cached, [], 0)
    else
      var l := LookupConsistency(cached, replies[0]);
      var rest := LookupMany(l.cached, replies[1..]);
      Run(rest.cached, [l.result] + rest.results, (if l.fetched then 1 else 0) + rest.fetches)
  }

  /** Once memoized, no call fetches and every call returns the memo. */
  lemma {:induction false} MemoizedNeverFetches(c: ConsistencyLevel, replies: seq<Result<ConsistencyLevel>>)
    ensures LookupMany(Some(c), replies).fetches == 0
    ensures LookupMany(Some(c), replies).cached == Some(c)
    ensures forall i :: 0 <= i < |replies| ==> LookupMany(Some(c), replies).results[i] == Ok(c)
    decreases |replies|
  {
    if replies != [] {
      MemoizedNeverFetches(c, replies[1..]);
    }
  }

  /** Starting empty, when the first fetch succeeds, N calls fetch exactly once
      and all return the first fetched value, whatever the service says later. */
  lemma FirstFetchIsFinal(replies: seq<Result<ConsistencyLevel>>)
    requires |replies| > 0 && replies[0].Ok?
    ensures LookupMany(None, replies).fetches == 1
    ensures forall i :: 0 <= i < |replies| ==> LookupMany(None, replies).results[i] == replies[0]
  {
    var c := replies[0].value;
    MemoizedNeverFetches(c, replies[1..]);
    var rest := LookupMany(Some(c), replies[1..]);
    var run := LookupMany(None, replies);
    assert run.results == [Ok(c)] + rest.results;
    forall i | 0 <= i < |replies|
      ensures run.results[i] == replies[0]
    {
      if i > 0 {
        assert run.results[i] == rest.results[i - 1];
      }
    }
  }

  /** A failed fetch is not memoized: while the service keeps failing, every
      call fetches again and reports the failure. */
  lemma {:induction false} FailuresAreRetried(replies: seq<Result<ConsistencyLevel>>)
    requires forall i :: 0 <= i < |replies| ==> replies[i].Err?
    ensures LookupMany(None, replies) == Run(None, replies, |replies|)
    decreases |replies|
  {
    if replies != [] {
      FailuresAreRetried(replies[1..]);
      assert [replies[0]] + replies[1..] == replies;
    }
  }

  // ---------------------------------------------------------------------------
  // Argument checks

  predicate IsNullOrEmpty(s: Option<string>)
  {
    s.None? || s.value == ""
  }

  /** `char.IsWhiteSpace`: the Unicode space separators, line and paragraph
      separators, and the control characters U+0009..U+000D, U+0085. */
  predicate IsWhiteSpace(c: char)
  {
    ('\U{9}' <= c <= '\U{D}') || c == ' ' || c == '\U{85}' || c == '\U{A0}' ||
    c == '\U{1680}' || ('\U{2000}' <= c <= '\U{200A}') || c == '\U{2028}' || c == '\U{2029}' ||
    c == '\U{202F}' || c == '\U{205F}' || c == '\U{3000}'
  }

  predicate IsNullOrWhiteSpace(s: Option<string>)
  {
    s.None? || forall i :: 0 <= i < |s.value| ==> IsWhiteSpace(s.value[i])
  }

  /** The public constructor's checks: the endpoint first, then the key; null
      options are replaced by the defaults. */
  function PublicConstructorArguments(accountEndpoint: Option<string>, authKeyOrResourceToken: Option<string>, clientOptions: Option<ClientOptions>): (r: Result<ClientOptions>)
    ensures r.Ok? <==> accountEndpoint.Some? && authKeyOrResourceToken.Some?
    ensures accountEndpoint.None? ==> r == Err(ArgumentNull("accountEndpoint"))
    ensures accountEndpoint.Some? && authKeyOrResourceToken.None? ==> r == Err(ArgumentNull("authKeyOrResourceToken"))
    ensures r.Ok? && clientOptions.Some? ==> r.value == clientOptions.value
    ensures r.Ok? && clientOptions.None? ==> r.value == DefaultClientOptions
  {
    if accountEndpoint.None? then Err(ArgumentNull("accountEndpoint"))
    else if authKeyOrResourceToken.None? then Err(ArgumentNull("authKeyOrResourceToken"))
    else if clientOptions.None? then Ok(DefaultClientOptions)
    else Ok(clientOptions.value)
  }

  /** The internal (test) constructor's checks: the same two, then the
      options and the document client, which may not be null either. */
  function InternalConstructorArguments(accountEndpoint: Option<string>, authKeyOrResourceToken: Option<string>, cosmosClientOptions: Option<ClientOptions>, documentClientGiven: bool): (o: Outcome)
    ensures o.Pass? <==> accountEndpoint.Some? && authKeyOrResourceToken.Some? && cosmosClientOptions.Some? && documentClientGiven
    ensures accountEndpoint.None? ==> o == Fail(ArgumentNull("accountEndpoint"))
    ensures accountEndpoint.Some? && authKeyOrResourceToken.None? ==> o == Fail(ArgumentNull("authKeyOrResourceToken"))
    ensures accountEndpoint.Some? && authKeyOrResourceToken.Some? && cosmosClientOptions.None? ==> o == Fail(ArgumentNull("cosmosClientOptions"))
    ensures accountEndpoint.Some? && authKeyOrResourceToken.Some? && cosmosClientOptions.Some? && !documentClientGiven ==>
              o == Fail(ArgumentNull("documentClient"))
  {
    if accountEndpoint.None? then Fail(ArgumentNull("accountEndpoint"))
    else if authKeyOrResourceToken.None? then Fail(ArgumentNull("authKeyOrResourceToken"))
    else if cosmosClientOptions.None? then Fail(ArgumentNull("cosmosClientOptions"))
    else if !documentClientGiven then Fail(ArgumentNull("documentClient"))
    else Pass
  }

  /** The internal constructor accepts exactly what the public one accepts
      once the options and the document client are present. */
  lemma InternalConstructorRejectsMore(accountEndpoint: Option<string>, authKeyOrResourceToken: Option<string>, options: Option<ClientOptions>, documentClientGiven: bool)
    ensures InternalConstructorArguments(accountEndpoint, authKeyOrResourceToken, options, documentClientGiven).Pass? ==>
              PublicConstructorArguments(accountEndpoint, authKeyOrResourceToken, options) == Ok(options.value)
    ensures PublicConstructorArguments(accountEndpoint, authKeyOrResourceToken, options).Err? ==>
              InternalConstructorArguments(accountEndpoint, authKeyOrResourceToken, options, documentClientGiven)
                == Fail(PublicConstructorArguments(accountEndpoint, authKeyOrResourceToken, options).error)
  {
  }

  /** The container proxy `GetDatabase(databaseId).GetContainer(containerId)`. */
  datatype ContainerRef = ContainerRef(databaseId: string, containerId: string)

  /** `GetContainer`: both ids must be non-null and non-empty, the database id
      checked first. */
  function GetContainer(databaseId: Option<string>, containerId: Option<string>): (r: Result<ContainerRef>)
    ensures r.Ok? <==> !IsNullOrEmpty(databaseId) && !IsNullOrEmpty(containerId)
    ensures IsNullOrEmpty(databaseId) ==> r == Err(ArgumentNull("databaseId"))
    ensures !IsNullOrEmpty(databaseId) && IsNullOrEmpty(containerId) ==> r == Err(ArgumentNull("containerId"))
    ensures r.Ok? ==> r.value.databaseId == databaseId.value && r.value.containerId == containerId.value
  {
    if IsNullOrEmpty(databaseId) then Err(ArgumentNull("databaseId"))
    else if IsNullOrEmpty(containerId) then Err(ArgumentNull("containerId"))
    else Ok(ContainerRef(databaseId.value, containerId.value))
  }

  datatype QueryDefinition = QueryDefinition(queryText: string)

  /** The request options a caller may pass; opaque to this layer. */
  datatype RequestOptions = RequestOptions(handle: nat)

  datatype ResourceType = DatabaseResource
  datatype OperationType = CreateOperation

  /** What a database query iterator is created with. */
  datatype DatabaseQueryIterator = DatabaseQueryIterator(
    resourceType: ResourceType,
    queryDefinition: Option<QueryDefinition>,
    continuationToken: Option<string>,
    requestOptions: Option<RequestOptions>)

  /** `GetDatabaseQueryStreamIterator(string …)`: a null query text gives a
      null query definition; any other text, including "", is wrapped as is. */
  function GetDatabaseQueryStreamIterator(queryText: Option<string>, continuationToken: Option<string>, requestOptions: Option<RequestOptions>): (it: DatabaseQueryIterator)
    ensures it.queryDefinition.None? <==> queryText.None?
    ensures it.queryDefinition.Some? ==> it.queryDefinition.value.queryText == queryText.value
    ensures it.resourceType == DatabaseResource
    ensures it.continuationToken == continuationToken && it.requestOptions == requestOptions
  {
    var queryDefinition := if queryText.Some? then Some(QueryDefinition(queryText.value)) else None;
    DatabaseQueryIterator(DatabaseResource, queryDefinition, continuationToken, requestOptions)
  }

  datatype DatabaseProperties = DatabaseProperties(id: string)

  /** `PrepareDatabaseProperties`: a null or all-whitespace id is rejected;
      otherwise properties with that id, subject to the client context's
      resource validation (`validateResource`, outside this model). */
  function PrepareDatabaseProperties(id: Option<string>, validateResource: string -> Outcome): (r: Result<DatabaseProperties>)
    ensures IsNullOrWhiteSpace(id) ==> r == Err(ArgumentNull("id"))
    ensures !IsNullOrWhiteSpace(id) ==> (r.Ok? <==> validateResource(id.value).Pass?)
    ensures !IsNullOrWhiteSpace(id) && r.Err? ==> r.error == validateResource(id.value).error
    ensures r.Ok? ==> r.value.id == id.value
  {
    if IsNullOrWhiteSpace(id) then Err(ArgumentNull("id"))
    else
      var properties := DatabaseProperties(id.value);
      match validateResource(properties.id)
      case Fail(e) => Err(e)
      case Pass => Ok(properties)
  }

  /** The request `CreateDatabaseStreamInternalAsync` hands to the pipeline:
      a create on the database root, the serialized properties as payload, and
      the throughput the request enricher adds as a header. */
  datatype DatabaseRequest = DatabaseRequest(
    resourceType: ResourceType,
    operationType: OperationType,
    payload: Bytes,
    throughput: Option<int>,
    requestOptions: Option<RequestOptions>)

  /** `CreateDatabaseStreamAsync`: null properties are rejected before
      validation, serialization or any request; otherwise the properties are
      validated, serialized with the properties serializer and sent. */
  function CreateDatabaseStream(
    databaseProperties: Option<DatabaseProperties>,
    throughput: Option<int>,
    requestOptions: Option<RequestOptions>,
    validateResource: string -> Outcome,
    toStream: DatabaseProperties -> Bytes): (r: Result<DatabaseRequest>)
    ensures databaseProperties.None? ==> r == Err(ArgumentNull("databaseProperties"))
    ensures databaseProperties.Some? ==> (r.Ok? <==> validateResource(databaseProperties.value.id).Pass?)
    ensures databaseProperties.Some? && r.Err? ==> r.error == validateResource(databaseProperties.value.id).error
    ensures r.Ok? ==> r.value == DatabaseRequest(DatabaseResource, CreateOperation, toStream(databaseProperties.value), throughput, requestOptions)
  {
    if databaseProperties.None? then Err(ArgumentNull("databaseProperties"))
    else
      match validateResource(databaseProperties.value.id)
      case Fail(e) => Err(e)
      case Pass => Ok(DatabaseRequest(DatabaseResource, CreateOperation, toStream(databaseProperties.value), throughput, requestOptions))
  }

  /** The null check comes before any collaborator is consulted: the outcome
      does not depend on the validator or the serializer. */
  lemma NullPropertiesNeverSerialized(
    throughput: Option<int>, requestOptions: Option<RequestOptions>,
    validate1: string -> Outcome, toStream1: DatabaseProperties -> Bytes,
    validate2: string -> Outcome, toStream2: DatabaseProperties -> Bytes)
    ensures CreateDatabaseStream(None, throughput, requestOptions, validate1, toStream1)
         == CreateDatabaseStream(None, throughput, requestOptions, validate2, toStream2)
  {
  }

  /** Properties prepared from an id are accepted by the create path with the
      same validator, and carry that id into the request payload. */
  lemma PreparedPropertiesAreSent(id: Option<string>, throughput: Option<int>, requestOptions: Option<RequestOptions>,
                                  validateResource: string -> Outcome, toStream: DatabaseProperties -> Bytes)
    requires PrepareDatabaseProperties(id, validateResource).Ok?
    ensures var p := PrepareDatabaseProperties(id, validateResource).value;
            CreateDatabaseStream(Some(p), throughput, requestOptions, validateResource, toStream)
              == Ok(DatabaseRequest(DatabaseResource, CreateOperation, toStream(DatabaseProperties(id.value)), throughput, requestOptions))
  {
  }

  // ---------------------------------------------------------------------------
  // The client object

  /** The document client the cosmos client owns. `reply` stands for what the
      account endpoint answers when asked for its default consistency level. */
  class DocumentClient {
    const handler: Option<HttpClientHandler>
    var reply: Result<ConsistencyLevel>
    var fetchCount: nat
    var disposeCount: nat

    constructor (handler: Option<HttpClientHandler>, reply: Result<ConsistencyLevel>)
      ensures this.handler == handler && this.reply == reply
      ensures fetchCount == 0 && disposeCount == 0
    {
      this.handler := handler;
      this.reply := reply;
      fetchCount := 0;
      disposeCount := 0;
    }

    /** `GetDefaultConsistencyLevelAsync`: one request to the account. */
    method GetDefaultConsistencyLevel() returns (r: Result<ConsistencyLevel>)
      modifies this`fetchCount
      ensures r == reply && fetchCount == old(fetchCount) + 1
    {
      r := reply;
      fetchCount := fetchCount + 1;
    }

    method Dispose()
      modifies this`disposeCount
      ensures disposeCount == old(disposeCount) + 1
    {
      disposeCount := disposeCount + 1;
    }
  }

  class CosmosClient {
    const endpoint: string
    const accountKey: string
    var clientOptions: ClientOptions
    var documentClient: DocumentClient?
    var accountConsistencyLevel: Option<ConsistencyLevel>

    /** `Init`: store the options and the document client; nothing memoized. */
    constructor Init(endpoint: string, accountKey: string, clientOptions: ClientOptions, documentClient: DocumentClient)
      ensures this.endpoint == endpoint && this.accountKey == accountKey
      ensures this.clientOptions == clientOptions && this.documentClient == documentClient
      ensures accountConsistencyLevel == None
    {
      this.endpoint := endpoint;
      this.accountKey := accountKey;
      this.clientOptions := clientOptions;
      this.documentClient := documentClient;
      accountConsistencyLevel := None;
    }

    /** The public constructor: argument checks, default options, then a
        document client whose HTTP handler follows the options' proxy. */
    static method Create(accountEndpoint: Option<string>, authKeyOrResourceToken: Option<string>, clientOptions: Option<ClientOptions>,
                         account: Result<ConsistencyLevel>) returns (r: Result<CosmosClient>)
      ensures r.Ok? <==> PublicConstructorArguments(accountEndpoint, authKeyOrResourceToken, clientOptions).Ok?
      ensures r.Err? ==> r.error == PublicConstructorArguments(accountEndpoint, authKeyOrResourceToken, clientOptions).error
      ensures r.Ok? ==> fresh(r.value) && fresh(r.value.documentClient)
      ensures r.Ok? ==> var options := PublicConstructorArguments(accountEndpoint, authKeyOrResourceToken, clientOptions).value;
                        r.value.clientOptions == options &&
                        r.value.endpoint == accountEndpoint.value && r.value.accountKey == authKeyOrResourceToken.value &&
                        r.value.documentClient != null &&
                        r.value.documentClient.handler == CreateHttpClientHandler(Some(options)) &&
                        r.value.documentClient.reply == account &&
                        r.value.documentClient.fetchCount == 0 && r.value.documentClient.disposeCount == 0 &&
                        r.value.accountConsistencyLevel == None
    {
      var checked := PublicConstructorArguments(accountEndpoint, authKeyOrResourceToken, clientOptions);
      if checked.Err? {
        return Err(checked.error);
      }
      var options := checked.value;
      var documentClient := new DocumentClient(CreateHttpClientHandler(Some(options)), account);
      var client := new CosmosClient.Init(accountEndpoint.value, authKeyOrResourceToken.value, options, documentClient);
      r := Ok(client);
    }

    /** The internal constructor used by tests: every argument must be given. */
    static method CreateWithDocumentClient(accountEndpoint: Option<string>, authKeyOrResourceToken: Option<string>,
                                           cosmosClientOptions: Option<ClientOptions>, documentClient: DocumentClient?)
      returns (r: Result<CosmosClient>)
      ensures var o := InternalConstructorArguments(accountEndpoint, authKeyOrResourceToken, cosmosClientOptions, documentClient != null);
              (r.Ok? <==> o.Pass?) && (r.Err? ==> r.error == o.error)
      ensures r.Ok? ==> fresh(r.value) && r.value.documentClient == documentClient &&
                        r.value.endpoint == accountEndpoint.value && r.value.accountKey == authKeyOrResourceToken.value &&
                        r.value.clientOptions == cosmosClientOptions.value && r.value.accountConsistencyLevel == None
    {
      var checked := InternalConstructorArguments(accountEndpoint, authKeyOrResourceToken, cosmosClientOptions, documentClient != null);
      if checked.Fail? {
        return Err(checked.error);
      }
      var client := new CosmosClient.Init(accountEndpoint.value, authKeyOrResourceToken.value, cosmosClientOptions.value, documentClient);
      r := Ok(client);
    }

    /** `GetAccountConsistencyLevelAsync`: one step of `LookupConsistency`
        against the document client. After disposal the document client is
        null, so a call that would have to fetch fails. */
    method GetAccountConsistencyLevel() returns (r: Result<ConsistencyLevel>)
      modifies this`accountConsistencyLevel, documentClient
      ensures documentClient == old(documentClient)
      ensures old(documentClient) != null ==>
                var l := LookupConsistency(old(accountConsistencyLevel), old(documentClient.reply));
                r == l.result && accountConsistencyLevel == l.cached &&
                documentClient.fetchCount == old(documentClient.fetchCount) + (if l.fetched then 1 else 0) &&
                documentClient.reply == old(documentClient.reply) &&
                documentClient.disposeCount == old(documentClient.disposeCount)
      ensures old(documentClient) == null && old(accountConsistencyLevel).Some? ==>
                r == Ok(old(accountConsistencyLevel).value) && accountConsistencyLevel == old(accountConsistencyLevel)
      ensures old(documentClient) == null && old(accountConsistencyLevel).None? ==>
                r == Err(NullReference("DocumentClient")) && accountConsistencyLevel == None
    {
      if accountConsistencyLevel.None? {
        if documentClient == null {
          return Err(NullReference("DocumentClient"));
        }
        var fetched := documentClient.GetDefaultConsistencyLevel();
        match fetched
        case Err(e) =>
          return Err(e);
        case Ok(level) =>
          accountConsistencyLevel := Some(level);
      }
      r := Ok(accountConsistencyLevel.value);
    }

    /** `Dispose(bool)`: the first call disposes the document client and
        nulls the reference; later calls find null and do nothing. The flag
        is not consulted. */
    method DisposeCore(disposing: bool)
      modifies this`documentClient, documentClient
      ensures documentClient == null
      ensures old(documentClient) != null ==> old(documentClient).disposeCount == old(documentClient.disposeCount) + 1
      ensures old(documentClient) != null ==> old(documentClient).fetchCount == old(documentClient.fetchCount)
      ensures old(documentClient) != null ==> old(documentClient).reply == old(documentClient.reply)
    {
      if documentClient != null {
        documentClient.Dispose();
        documentClient := null;
      }
    }

    /** `Dispose()`: `Dispose(true)`. */
    method Dispose()
      modifies this`documentClient, documentClient
      ensures documentClient == null
      ensures old(documentClient) != null ==> old(documentClient).disposeCount == old(documentClient.disposeCount) + 1
      ensures old(documentClient) != null ==> old(documentClient).fetchCount == old(documentClient.fetchCount)
      ensures old(documentClient) != null ==> old(documentClient).reply == old(documentClient.reply)
    {
      DisposeCore(true);
    }
  }

  /** Disposal is idempotent: disposing a live client twice disposes its
      document client exactly once. */
  method DisposeIsIdempotent(client: CosmosClient)
    requires client.documentClient != null
    modifies client, client.documentClient
    ensures client.documentClient == null
    ensures old(client.documentClient).disposeCount == old(client.documentClient.disposeCount) + 1
  {
    client.Dispose();
    client.Dispose();
  }
}
