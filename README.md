# Cosmos DB client: typed-response materialization, modelled in Dafny

This project models the layer of the Azure Cosmos DB .NET client that turns a
raw service response into a typed result, together with the small pieces of
client state around it.

- **Classic response factory** (`ClassicResponseFactory`, `classic_factory.dfy`).
  The success gate comes first. An absent body gives `default(T)`, modelled as
  `None`. Otherwise the body is decoded with one of two serializers. The user
  serializer handles items and stored-procedure execution results. The
  properties serializer handles containers, users, permissions, databases,
  throughput, stored procedures, triggers and user-defined functions. Each of
  the nine `Create*ResponseAsync` methods wraps the message's status, headers
  and diagnostics around the decoded value. Each one disposes the awaited
  message exactly once. The feed path takes a flag that forces the properties
  serializer. It sends a query message to the query page builder and any other
  message to the read-feed page builder.
- **azuredata response factory** (`DataResponseFactory`, `data_factory.dfy`).
  This is the same algorithm with the gate written out. A status below 200 or
  at or above 300 throws a `CosmosException`. Its message text is modelled
  character for character, and a parser proves that the status and the reason
  phrase can be read back from it. A lemma shows that both SDKs accept the
  same statuses and decode to the same value. That lemma rests on taking the
  classic SDK's `EnsureSuccessStatusCode` to be the same 200..299 gate (see
  "Left out").
- **Client state** (`Client`, `client.dfy`). The `CosmosClient` class holds the
  memoized account consistency level and the document client. The consistency
  lookup is specified by a pure step function, `LookupConsistency`, and lemmas
  prove what N sequential calls do. `Dispose` nulls the document client and is
  idempotent. The constructors' argument checks, `GetContainer`,
  `PrepareDatabaseProperties`, `CreateDatabaseStreamAsync`'s null check, the
  string overload of `GetDatabaseQueryStreamIterator` and
  `CreateHttpClientHandler`'s null rule are pure functions.
- Shared values (`Outcomes`, `Messages`): `Option` stands for a C# null,
  `Result` for a return-or-throw, and `Error` for the exceptions. A disposable
  `Message` class holds an immutable `RawResponse`. A `Serializer` is seen
  through its decoding function.

A C# exception is modelled as an `Err` result. A `Task` that faults before the
message is available is an `Err` passed in where the message would be, so there
is nothing to dispose. Collaborators outside the model are function parameters:
serializers, the feed page builders, the client context's resource validation
and the properties serializer's `ToStream`. The account metadata fetch is a
`DocumentClient` method that counts its calls.

Both factories accept 200 through 299 inclusive, as the test
`status < 200 || status >= 300` at
Microsoft.Azure.Cosmos/azuredata/Resource/CosmosResponseFactory.cs:54 does.

## Model

| member | source | states |
|---|---|---|
| `ClassicResponseFactory.NewResponseFactory` | Microsoft.Azure.Cosmos/src/Resource/CosmosResponseFactory.cs:23-29 | the default serializer fills the properties role and the user serializer fills the user role, never swapped |
| `ClassicResponseFactory.RoleOf` | Microsoft.Azure.Cosmos/src/Resource/CosmosResponseFactory.cs:71-216 | the user role is chosen exactly for items and stored-procedure execution results; every metadata kind gets the properties role |
| `ClassicResponseFactory.EnsureSuccessStatusCode` | Microsoft.Azure.Cosmos/src/Resource/CosmosResponseFactory.cs:228-229 | passes exactly for statuses 200..299; otherwise fails with the status and reason phrase |
| `ClassicResponseFactory.ToObjectInternal` | Microsoft.Azure.Cosmos/src/Resource/CosmosResponseFactory.cs:226-237 | a non-success status is exactly the status error; `default(T)` exactly when the status succeeds and the body is absent; otherwise the given serializer's decoding of the body |
| `ClassicResponseFactory.Materialize` | Microsoft.Azure.Cosmos/src/Resource/CosmosResponseFactory.cs:74-82 | the decision table for every kind: status error, an empty typed response, the value decoded by the kind's role serializer, or that serializer's decode error |
| `ClassicResponseFactory.TypedResponseCarriesMessage` | Microsoft.Azure.Cosmos/src/Resource/CosmosResponseFactory.cs:77-81 | a typed response exists only for a success status, and it carries the message's status, headers, diagnostics and the proxy unchanged |
| `ClassicResponseFactory.FailureIgnoresSerializers` | Microsoft.Azure.Cosmos/src/Resource/CosmosResponseFactory.cs:228-236 | for a failing status the result is the same status error whatever the serializers are, so no decoding happens before the gate |
| `ClassicResponseFactory.RolesAreDistinguishable` | Microsoft.Azure.Cosmos/src/Resource/CosmosResponseFactory.cs:89-91 | when the two serializers read a body differently, an item and a container decoded from the same message differ |
| `ClassicResponseFactory.ProcessMessage` | Microsoft.Azure.Cosmos/src/Resource/CosmosResponseFactory.cs:218-224 | the result is `createResponse` of the awaited message, and the message is disposed exactly once whether that result is a value or an error; a faulted task passes its error on |
| `ClassicResponseFactory.CreateItemResponse` | Microsoft.Azure.Cosmos/src/Resource/CosmosResponseFactory.cs:71-83 | item response decoded with the user serializer; the message is disposed once |
| `ClassicResponseFactory.CreateContainerResponse` | Microsoft.Azure.Cosmos/src/Resource/CosmosResponseFactory.cs:85-99 | container properties decoded with the properties serializer and paired with the container; the message is disposed once |
| `ClassicResponseFactory.CreateUserResponse` | Microsoft.Azure.Cosmos/src/Resource/CosmosResponseFactory.cs:101-115 | user properties decoded with the properties serializer and paired with the user; the message is disposed once |
| `ClassicResponseFactory.CreatePermissionResponse` | Microsoft.Azure.Cosmos/src/Resource/CosmosResponseFactory.cs:117-131 | permission properties decoded with the properties serializer and paired with the permission; the message is disposed once |
| `ClassicResponseFactory.CreateDatabaseResponse` | Microsoft.Azure.Cosmos/src/Resource/CosmosResponseFactory.cs:133-150 | database properties decoded with the properties serializer and paired with the database; the message is disposed once |
| `ClassicResponseFactory.CreateThroughputResponse` | Microsoft.Azure.Cosmos/src/Resource/CosmosResponseFactory.cs:152-164 | throughput properties decoded with the properties serializer; the message is disposed once |
| `ClassicResponseFactory.CreateStoredProcedureExecuteResponse` | Microsoft.Azure.Cosmos/src/Resource/CosmosResponseFactory.cs:166-177 | the execution result is decoded with the user serializer; the message is disposed once |
| `ClassicResponseFactory.CreateStoredProcedureResponse` | Microsoft.Azure.Cosmos/src/Resource/CosmosResponseFactory.cs:179-190 | stored-procedure properties decoded with the properties serializer; the message is disposed once |
| `ClassicResponseFactory.CreateTriggerResponse` | Microsoft.Azure.Cosmos/src/Resource/CosmosResponseFactory.cs:192-203 | trigger properties decoded with the properties serializer; the message is disposed once |
| `ClassicResponseFactory.CreateUserDefinedFunctionResponse` | Microsoft.Azure.Cosmos/src/Resource/CosmosResponseFactory.cs:205-216 | user-defined-function properties decoded with the properties serializer; the message is disposed once |
| `ClassicResponseFactory.CreateQueryFeedResponseHelper` | Microsoft.Azure.Cosmos/src/Resource/CosmosResponseFactory.cs:47-69 | the gate comes first; then the serializer the flag selects is used, a query message goes to the query builder and any other message to the read-feed builder |
| `ClassicResponseFactory.CreateQueryFeedResponseWithPropertySerializer` | Microsoft.Azure.Cosmos/src/Resource/CosmosResponseFactory.cs:31-37 | the page is always built with the properties serializer |
| `ClassicResponseFactory.CreateQueryFeedResponse` | Microsoft.Azure.Cosmos/src/Resource/CosmosResponseFactory.cs:39-45 | the page is always built with the user serializer |
| `ClassicResponseFactory.PropertyFeedIgnoresUserSerializer` | Microsoft.Azure.Cosmos/src/Resource/CosmosResponseFactory.cs:54-56 | two factories that share the properties serializer build the same metadata feed page, so a custom user serializer cannot affect it |
| `Messages.DecodeWith` | Microsoft.Azure.Cosmos/src/Resource/CosmosResponseFactory.cs:236 | a decoding failure surfaces as a serialization error carrying the serializer's detail and is never turned into a value |
| `DataResponseFactory.NewResponseFactory` | Microsoft.Azure.Cosmos/azuredata/Resource/CosmosResponseFactory.cs:23-29 | the default serializer is stored as the properties serializer and the user serializer as the item serializer |
| `DataResponseFactory.ToObjectInternal` | Microsoft.Azure.Cosmos/azuredata/Resource/CosmosResponseFactory.cs:50-68 | a `CosmosException` is thrown exactly when the status is below 200 or at least 300, and it carries the status, the reason and the message text; `default(T)` exactly on success with no stream; otherwise the serializer's decoding |
| `DataResponseFactory.StatusMessageRoundTrip` | Microsoft.Azure.Cosmos/azuredata/Resource/CosmosResponseFactory.cs:56 | the exception message can be parsed back into the exact status and reason phrase, whatever characters the reason contains |
| `DataResponseFactory.NatToDecimalRoundTrip` | Microsoft.Azure.Cosmos/azuredata/Resource/CosmosResponseFactory.cs:56 | the decimal rendering of a status is a non-empty digit string that reads back to the same number |
| `DataResponseFactory.IntToDecimalRoundTrip` | Microsoft.Azure.Cosmos/azuredata/Resource/CosmosResponseFactory.cs:56 | the interpolated rendering of any `int`, negative ones included, contains no space and parses back to the same value |
| `DataResponseFactory.ExceptionMessageNamesStatus` | Microsoft.Azure.Cosmos/azuredata/Resource/CosmosResponseFactory.cs:54-61 | for every non-success response the thrown message states that response's status and reason phrase |
| `DataResponseFactory.GateBoundaries` | Microsoft.Azure.Cosmos/azuredata/Resource/CosmosResponseFactory.cs:54 | 199 and 300 are rejected; 200 and 299 never raise the status exception |
| `DataResponseFactory.GatesAgree` | Microsoft.Azure.Cosmos/azuredata/Resource/CosmosResponseFactory.cs:54-67 | the classic and azuredata decoders succeed on the same inputs, give the same value on success, and report the same status and reason on a failing status |
| `DataResponseFactory.ItemResponse` | Microsoft.Azure.Cosmos/azuredata/Resource/CosmosResponseFactory.cs:35-39 | an item response exists only for a success status; it wraps the original response with the value the user serializer decoded, or `default(T)` when there is no stream; a failure is exactly the decoder's error: the `CosmosException` for a failing status, the serializer's error for a bad body |
| `DataResponseFactory.ItemIgnoresPropertiesSerializer` | Microsoft.Azure.Cosmos/azuredata/Resource/CosmosResponseFactory.cs:37 | item responses depend only on the user serializer |
| `DataResponseFactory.ProcessMessage` | Microsoft.Azure.Cosmos/azuredata/Resource/CosmosResponseFactory.cs:42-48 | the response is disposed exactly once whether `createResponse` returns or throws; a faulted task passes its error on |
| `DataResponseFactory.CreateItemResponse` | Microsoft.Azure.Cosmos/azuredata/Resource/CosmosResponseFactory.cs:31-40 | the item response of the awaited response; the response is disposed once |
| `Client.CreateHttpClientHandler` | Microsoft.Azure.Cosmos/azuredata/CosmosClient.cs:573-584 | no handler exactly when the options or their proxy are null; otherwise the handler's proxy is the options' proxy |
| `Client.LookupConsistency` | Microsoft.Azure.Cosmos/azuredata/CosmosClient.cs:488-496 | a call fetches exactly when nothing is memoized; a memoized value is returned as is; a fetch returns the service's answer and memoizes exactly that answer only when it succeeded |
| `Client.MemoizedNeverFetches` | Microsoft.Azure.Cosmos/azuredata/CosmosClient.cs:490-495 | once a value is memoized, any number of calls fetch nothing and all return it |
| `Client.FirstFetchIsFinal` | Microsoft.Azure.Cosmos/azuredata/CosmosClient.cs:488-496 | from an empty memo, when the first fetch succeeds, N sequential calls fetch exactly once and all return the first fetched value |
| `Client.FailuresAreRetried` | Microsoft.Azure.Cosmos/azuredata/CosmosClient.cs:490-493 | a failed fetch is not memoized: while the service fails, every call fetches again and reports the failure |
| `Client.PublicConstructorArguments` | Microsoft.Azure.Cosmos/azuredata/CosmosClient.cs:204-217 | the argument checks pass exactly when the endpoint and the key are non-null; a null endpoint is reported before a null key; null options become the defaults |
| `Client.InternalConstructorArguments` | Microsoft.Azure.Cosmos/azuredata/CosmosClient.cs:249-267 | checks the endpoint, then the key, then the options, then the document client, and passes exactly when all four are present |
| `Client.InternalConstructorRejectsMore` | Microsoft.Azure.Cosmos/azuredata/CosmosClient.cs:204-267 | the test constructor accepts only what the public one accepts, and reports the same first error for a null endpoint or key |
| `Client.GetContainer` | Microsoft.Azure.Cosmos/azuredata/CosmosClient.cs:347-360 | succeeds exactly when both ids are non-null and non-empty; the database id is checked first; the proxy names both ids |
| `Client.GetDatabaseQueryStreamIterator` | Microsoft.Azure.Cosmos/azuredata/CosmosClient.cs:392-407 | a null query text gives a null query definition; otherwise the definition holds exactly that text; the continuation token and options pass through to a database iterator |
| `Client.PrepareDatabaseProperties` | Microsoft.Azure.Cosmos/azuredata/CosmosClient.cs:498-512 | a null or all-whitespace id is rejected; otherwise the result succeeds exactly when resource validation passes, and its id is the given id |
| `Client.CreateDatabaseStream` | Microsoft.Azure.Cosmos/azuredata/CosmosClient.cs:428-443 | null properties are rejected; otherwise the request is built exactly when validation passes, as a database create carrying the serialized properties, the throughput and the options; a failed validation passes the validator's error on |
| `Client.NullPropertiesNeverSerialized` | Microsoft.Azure.Cosmos/azuredata/CosmosClient.cs:434-440 | with null properties the outcome does not depend on the validator or the serializer, so neither runs |
| `Client.PreparedPropertiesAreSent` | Microsoft.Azure.Cosmos/azuredata/CosmosClient.cs:498-545 | properties prepared from an id go through the create path and the request carries that id's serialized properties |
| `Client.CosmosClient.Init` | Microsoft.Azure.Cosmos/azuredata/CosmosClient.cs:454-459 | stores the options and the document client; nothing is memoized yet |
| `Client.CosmosClient.Create` | Microsoft.Azure.Cosmos/azuredata/CosmosClient.cs:199-238 | fails exactly as the null checks do; otherwise a fresh client storing the endpoint, the key and the effective options, with nothing memoized, and a fresh document client whose handler follows the options' proxy, which answers with the account's reply and has not yet fetched or been disposed |
| `Client.CosmosClient.CreateWithDocumentClient` | Microsoft.Azure.Cosmos/azuredata/CosmosClient.cs:243-273 | fails exactly as the test constructor's checks do; otherwise a fresh client storing the endpoint, the key, the given options and the given document client, with nothing memoized |
| `Client.CosmosClient.GetAccountConsistencyLevel` | Microsoft.Azure.Cosmos/azuredata/CosmosClient.cs:488-496 | one `LookupConsistency` step against the document client: the memo, the result and the fetch count change exactly as that step says; with no document client, a call that would fetch fails |
| `Client.CosmosClient.DisposeCore` | Microsoft.Azure.Cosmos/azuredata/CosmosClient.cs:590-597 | afterwards the document client is null; a live document client is disposed exactly once, its fetch count and reply unchanged; a null one is left alone |
| `Client.CosmosClient.Dispose` | Microsoft.Azure.Cosmos/azuredata/CosmosClient.cs:448-452 | the same as `Dispose(true)` |
| `Client.DisposeIsIdempotent` | Microsoft.Azure.Cosmos/azuredata/CosmosClient.cs:590-597 | disposing a live client twice disposes its document client exactly once |

## Left out

- Decoded payloads: `T` and the per-kind property classes are one type parameter. `default(T)` is `None`, so the model does not show that a value-type `T` would give a zero value.
- The serializers' internals (`FromStream`, `FromStreamAsync`, `ToStream`) are function parameters, and the model does not include them.
- `QueryResponse<T>.CreateResponse` and `ReadFeedResponse<T>.CreateResponse` are parameters of the feed path, and the model does not include them.
- `EnsureSuccessStatusCode` of the classic SDK is not part of this model. It is taken to be the same 200..299 gate, raising an error with the status and reason. Its message text is unknown.
- The client context's `ValidateResource` is a parameter, and the model does not include it.
- The transport, the handler pipeline (`ClientPipelineBuilder`, `RequestInvokerHandler`), `ClientContextCore` and `FeedIteratorCore` are foreign wiring and are not modelled. The feed iterator's paging is therefore not modelled either.
- `Init`'s construction of the pipeline, the response factory, the query-spec serializer and the client context is not modelled, because it calls code outside the model.
- `DocumentClient` construction and `ReadAccountAsync` are foreign calls. The document client is a small class that records its HTTP handler, counts fetches and disposals, and answers with a settable reply.
- The connection-string constructor is not modelled, because it parses the string with `CosmosClientOptions` helpers outside the model.
- The `Uri` parsing of the endpoint, the options `Clone` and `GetDatabase` are not modelled. Options are values, so a clone is the same value.
- Client.CosmosClient.Create: because `new Uri(accountEndpoint)` is not modelled, `Create` accepts an empty or malformed endpoint that the source rejects with a `UriFormatException`; its contract only promises the null checks.
- DataResponseFactory.IntToDecimal: the minus sign of a negative status is always '-'. C# interpolation uses the current culture's `NegativeSign`, which the model does not include.
- DataResponseFactory.StatusMessage: a null `ReasonPhrase` renders as an empty string in the source. The model's reason is a `string` that cannot be null, so it covers that case only as the reason "".
- ClassicResponseFactory.ToObjectInternal: when `FromStream` itself yields null, the source returns `default(T)` just as for an absent body. The model keeps a decoded value `Some(v)` apart from `None`, so it does not merge those two cases.
- Async machinery, cancellation tokens, `GC.SuppressFinalize` and the static constructor's process-wide protocol constants are left out. Every operation is synchronous.
- Client.CosmosClient.GetAccountConsistencyLevel: only sequential calls are modelled. Concurrent first callers may each fetch, and the last write wins; the model does not state that race.
- `CreateDatabaseAsync` and `DatabaseFeedRequestExecutorAsync` are not modelled, because they only wire the pieces above to the pipeline.
- `AccountConsistency` contributes only the shape of the cached consistency level, an enumeration. The staleness bounds and their minimum and maximum constants are not modelled.
- The user-agent container and the composite-path descriptor hold no logic to model.
- `int` is unbounded in the model. Statuses are compared, never computed, so 32-bit wrap-around does not arise.
