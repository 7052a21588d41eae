/**
  MongoManager: the Data API client. Each action builds the request that the
  source hands to `fetch`: the URL `baseURL + "/action/" + <action>`, the POST
  method, the header map of `headers(for:)` and the JSON-encoded envelope
  struct. The transport itself is outside the model, so every builder returns
  that request as a value. The overloads of `findOne` and `find` that leave out
  a filter, projection or sort put the empty object `{}` in its place.

  Responses come back wrapped as `{"document": …}` or `{"documents": …}`; the
  unwrap functions project the payload out and the decode functions compose
  decoding the wrapper with unwrapping it.
 */
module MongoManager {
  import opened Json
  import opened Envelopes

  /** The connection details every action takes, with the source's defaults. */
  datatype MongoData = MongoData(
    baseURL: string,
    database: string,
    dataSource: string,
    apiKey: Option<string>,
    contentType: string := "application/json",
    accessControlRequestHeaders: string := "*",
    accept: string := "application/json")

  /** Every Data API action is sent with `.post`; no other method is used. */
  datatype HttpMethod = Post

  /** What the source passes to `fetch`: URL, method, headers and JSON body. */
  datatype Request = Request(
    url: string, verb: HttpMethod, headers: map<string, string>, body: map<string, Json>)

  // ------------------------------------------------------------------ headers

  /**
    The header map of every request. `Accept` is filled from
    `accessControlRequestHeaders`, not from `accept`, exactly as the source
    does; a missing API key is sent as an empty `api-key` header.
   */
  function Headers(data: MongoData): (h: map<string, string>)
    ensures h.Keys == {"Content-Type", "Access-Control-Request-Headers", "Accept", "api-key"}
    ensures h["Content-Type"] == data.contentType
    ensures h["Access-Control-Request-Headers"] == data.accessControlRequestHeaders
    ensures h["Accept"] == h["Access-Control-Request-Headers"]
    ensures h["api-key"] == if data.apiKey.Some? then data.apiKey.value else ""
  {
    map[
      "Content-Type" := data.contentType,
      "Access-Control-Request-Headers" := data.accessControlRequestHeaders,
      "Accept" := data.accessControlRequestHeaders,
      "api-key" := if data.apiKey.Some? then data.apiKey.value else ""
    ]
  }

  /** The `accept` field never reaches the wire: headers do not depend on it. */
  lemma HeadersIgnoreAccept(data: MongoData, accept: string)
    ensures Headers(data.(accept := accept)) == Headers(data)
  {
  }

  /** The four headers are always there, so a request never has fewer or more. */
  lemma HeaderCount(data: MongoData)
    ensures |Headers(data)| == 4
  {
  }

  /**
    With the default settings the `Accept` header reads `*`, the default of
    `accessControlRequestHeaders`, and not the `application/json` held in `accept`.
   */
  lemma DefaultHeaders(baseURL: string, database: string, dataSource: string, apiKey: Option<string>)
    ensures var data := MongoData(baseURL, database, dataSource, apiKey);
            var h := Headers(data);
            h["Content-Type"] == "application/json" && h["Accept"] == "*" && h["Accept"] != data.accept
  {
  }

  // ---------------------------------------------------------------- endpoints

  /** The nine Data API actions the client calls. */
  datatype Action =
    | FindOneAction | FindAction | InsertOneAction | InsertManyAction
    | UpdateOneAction | UpdateManyAction | ReplaceOneAction | DeleteOneAction
    | AggregateAction

  /** The action's name as it appears in the URL. */
  function ActionName(a: Action): string {
    match a
    case FindOneAction => "findOne"
    case FindAction => "find"
    case InsertOneAction => "insertOne"
    case InsertManyAction => "insertMany"
    case UpdateOneAction => "updateOne"
    case UpdateManyAction => "updateMany"
    case ReplaceOneAction => "replaceOne"
    case DeleteOneAction => "deleteOne"
    case AggregateAction => "aggregate"
  }

  /** `"\(baseURL)/action/<name>"`. */
  function Endpoint(baseURL: string, a: Action): string {
    baseURL + "/action/" + ActionName(a)
  }

  /** Reads the action back from a URL, when it is one under `baseURL`. */
  function ActionOf(baseURL: string, url: string): (r: Option<Action>)
    ensures r.Some? ==> url == Endpoint(baseURL, r.value)
  {
    var prefix := baseURL + "/action/";
    if |url| < |prefix| || url[..|prefix|] != prefix then None
    else
      var name := url[|prefix|..];
      assert url == prefix + name;
      if name == "findOne" then Some(FindOneAction)
      else if name == "find" then Some(FindAction)
      else if name == "insertOne" then Some(InsertOneAction)
      else if name == "insertMany" then Some(InsertManyAction)
      else if name == "updateOne" then Some(UpdateOneAction)
      else if name == "updateMany" then Some(UpdateManyAction)
      else if name == "replaceOne" then Some(ReplaceOneAction)
      else if name == "deleteOne" then Some(DeleteOneAction)
      else if name == "aggregate" then Some(AggregateAction)
      else None
  }

  /** The action is recoverable from its endpoint. */
  lemma ActionOfEndpoint(baseURL: string, a: Action)
    ensures ActionOf(baseURL, Endpoint(baseURL, a)) == Some(a)
  {
  }

  /** Different actions never share a URL, whatever the base URL. */
  lemma EndpointsDistinct(baseURL: string, a: Action, b: Action)
    requires a != b
    ensures Endpoint(baseURL, a) != Endpoint(baseURL, b)
  {
    ActionOfEndpoint(baseURL, a);
    ActionOfEndpoint(baseURL, b);
  }

  /** The `fetch` call every action ends in: POST of the encoded body to the action's endpoint. */
  function Fetch(data: MongoData, a: Action, body: map<string, Json>): (r: Request)
    ensures r.url == Endpoint(data.baseURL, a) && ActionOf(data.baseURL, r.url) == Some(a)
    ensures r.verb == Post && r.headers == Headers(data) && r.body == body
  {
    ActionOfEndpoint(data.baseURL, a);
    Request(Endpoint(data.baseURL, a), Post, Headers(data), body)
  }

  /** The request goes to action `a` with the connection's headers. */
  predicate Sends(r: Request, data: MongoData, a: Action) {
    r.url == Endpoint(data.baseURL, a) && r.verb == Post && r.headers == Headers(data)
  }

  // ------------------------------------------------------------------ findOne

  /** The `findOne` body: routing fields, and `filter` and `projection` always present. */
  predicate IsFindOneRequest(r: Request, data: MongoData, collection: string, filter: Json, projection: Json) {
    && Sends(r, data, FindOneAction)
    && r.body.Keys == RoutingKeys + {"filter", "projection"}
    && Routed(r.body, collection, data.database, data.dataSource)
    && r.body["filter"] == filter && r.body["projection"] == projection
  }

  function FindOne(data: MongoData, collection: string, filter: Json, projection: Json): (r: Request)
    ensures IsFindOneRequest(r, data, collection, filter, projection)
  {
    var e := FindOneRequest(collection, data.database, data.dataSource, Some(filter), Some(projection));
    Fetch(data, FindOneAction, EncodeFindOne(e))
  }

  /** `findOne(mongoData:collection:)`: both filter and projection are `{}`. */
  function FindOneDefault(data: MongoData, collection: string): (r: Request)
    ensures IsFindOneRequest(r, data, collection, EmptyObject, EmptyObject)
  {
    FindOne(data, collection, EmptyObject, EmptyObject)
  }

  /** `findOne(mongoData:collection:filter:)`: the projection is `{}`. */
  function FindOneWithFilter(data: MongoData, collection: string, filter: Json): (r: Request)
    ensures IsFindOneRequest(r, data, collection, filter, EmptyObject)
  {
    FindOne(data, collection, filter, EmptyObject)
  }

  /** `findOne(mongoData:collection:projection:)`: the filter is `{}`. */
  function FindOneWithProjection(data: MongoData, collection: string, projection: Json): (r: Request)
    ensures IsFindOneRequest(r, data, collection, EmptyObject, projection)
  {
    FindOne(data, collection, EmptyObject, projection)
  }

  /**
    Decoding the body of `findOne(mongoData:collection:)` back into
    `FindOneRequest` gives a filter and a projection that are both present
    and empty, never absent.
   */
  lemma FindOneDefaultSendsEmptyObjects(data: MongoData, collection: string)
    ensures DecodeFindOne(JObj(FindOneDefault(data, collection).body))
            == Ok(FindOneRequest(collection, data.database, data.dataSource, Some(EmptyObject), Some(EmptyObject)))
  {
    FindOneRoundTrip(FindOneRequest(collection, data.database, data.dataSource, Some(EmptyObject), Some(EmptyObject)));
  }

  // --------------------------------------------------------------------- find

  /**
    The `find` body: routing fields, `filter`, `projection` and `sort` always
    present, `limit` and `skip` present exactly when given, as JSON integers.
   */
  predicate IsFindRequest(r: Request, data: MongoData, collection: string,
                          filter: Json, projection: Json, sort: Json,
                          limit: Option<Int64>, skip: Option<Int64>) {
    && Sends(r, data, FindAction)
    && r.body.Keys == RoutingKeys + {"filter", "projection", "sort"}
                      + KeyIf(limit.Some?, "limit") + KeyIf(skip.Some?, "skip")
    && Routed(r.body, collection, data.database, data.dataSource)
    && r.body["filter"] == filter && r.body["projection"] == projection && r.body["sort"] == sort
    && (limit.Some? ==> r.body["limit"] == JInt(limit.value as int))
    && (skip.Some? ==> r.body["skip"] == JInt(skip.value as int))
  }

  function Find(data: MongoData, collection: string, filter: Json, projection: Json, sort: Json,
                limit: Option<Int64> := None, skip: Option<Int64> := None): (r: Request)
    ensures IsFindRequest(r, data, collection, filter, projection, sort, limit, skip)
  {
    var e := FindRequest(collection, data.database, data.dataSource,
                         Some(filter), Some(projection), Some(sort), limit, skip);
    var body := EncodeFind(e);
    assert body.Keys == RoutingKeys + {"filter", "projection", "sort"}
                        + KeyIf(limit.Some?, "limit") + KeyIf(skip.Some?, "skip");
    assert body["filter"] == filter && body["projection"] == projection && body["sort"] == sort;
    var r := Fetch(data, FindAction, body);
    assert Sends(r, data, FindAction);
    r
  }

  /** `find(mongoData:collection:limit:skip:)`: filter, projection and sort are `{}`. */
  function FindDefault(data: MongoData, collection: string,
                       limit: Option<Int64> := None, skip: Option<Int64> := None): (r: Request)
    ensures IsFindRequest(r, data, collection, EmptyObject, EmptyObject, EmptyObject, limit, skip)
  {
    Find(data, collection, EmptyObject, EmptyObject, EmptyObject, limit, skip)
  }

  /** `find(mongoData:collection:filter:limit:skip:)`. */
  function FindWithFilter(data: MongoData, collection: string, filter: Json,
                          limit: Option<Int64> := None, skip: Option<Int64> := None): (r: Request)
    ensures IsFindRequest(r, data, collection, filter, EmptyObject, EmptyObject, limit, skip)
  {
    Find(data, collection, filter, EmptyObject, EmptyObject, limit, skip)
  }

  /** `find(mongoData:collection:filter:projection:limit:skip:)`. */
  function FindWithFilterProjection(data: MongoData, collection: string, filter: Json, projection: Json,
                                    limit: Option<Int64> := None, skip: Option<Int64> := None): (r: Request)
    ensures IsFindRequest(r, data, collection, filter, projection, EmptyObject, limit, skip)
  {
    Find(data, collection, filter, projection, EmptyObject, limit, skip)
  }

  /** `find(mongoData:collection:filter:sort:limit:skip:)`. */
  function FindWithFilterSort(data: MongoData, collection: string, filter: Json, sort: Json,
                              limit: Option<Int64> := None, skip: Option<Int64> := None): (r: Request)
    ensures IsFindRequest(r, data, collection, filter, EmptyObject, sort, limit, skip)
  {
    Find(data, collection, filter, EmptyObject, sort, limit, skip)
  }

  /** `find(mongoData:collection:projection:limit:skip:)`. */
  function FindWithProjection(data: MongoData, collection: string, projection: Json,
                              limit: Option<Int64> := None, skip: Option<Int64> := None): (r: Request)
    ensures IsFindRequest(r, data, collection, EmptyObject, projection, EmptyObject, limit, skip)
  {
    Find(data, collection, EmptyObject, projection, EmptyObject, limit, skip)
  }

  /** `find(mongoData:collection:projection:sort:limit:skip:)`. */
  function FindWithProjectionSort(data: MongoData, collection: string, projection: Json, sort: Json,
                                  limit: Option<Int64> := None, skip: Option<Int64> := None): (r: Request)
    ensures IsFindRequest(r, data, collection, EmptyObject, projection, sort, limit, skip)
  {
    Find(data, collection, EmptyObject, projection, sort, limit, skip)
  }

  /** `find(mongoData:collection:sort:limit:skip:)`. */
  function FindWithSort(data: MongoData, collection: string, sort: Json,
                        limit: Option<Int64> := None, skip: Option<Int64> := None): (r: Request)
    ensures IsFindRequest(r, data, collection, EmptyObject, EmptyObject, sort, limit, skip)
  {
    Find(data, collection, EmptyObject, EmptyObject, sort, limit, skip)
  }

  /**
    Decoding the body of `find(mongoData:collection:limit:skip:)` back into
    `FindRequest` gives `{}` for filter, projection and sort, and exactly the
    `limit` and `skip` that were given (`nil` when left out).
   */
  lemma FindDefaultSendsEmptyObjects(data: MongoData, collection: string, limit: Option<Int64>, skip: Option<Int64>)
    ensures DecodeFind(JObj(FindDefault(data, collection, limit, skip).body))
            == Ok(FindRequest(collection, data.database, data.dataSource,
                              Some(EmptyObject), Some(EmptyObject), Some(EmptyObject), limit, skip))
  {
    FindRoundTrip(FindRequest(collection, data.database, data.dataSource,
                              Some(EmptyObject), Some(EmptyObject), Some(EmptyObject), limit, skip));
  }

  // ----------------------------------------------------------- insertOne/Many

  function InsertOne(data: MongoData, collection: string, document: Json): (r: Request)
    ensures Sends(r, data, InsertOneAction)
    ensures r.body.Keys == RoutingKeys + {"document"}
    ensures Routed(r.body, collection, data.database, data.dataSource)
    ensures r.body["document"] == document
  {
    Fetch(data, InsertOneAction,
          EncodeInsertOne(InsertOneRequest(collection, data.database, data.dataSource, document)))
  }

  function InsertMany(data: MongoData, collection: string, documents: seq<Json>): (r: Request)
    ensures Sends(r, data, InsertManyAction)
    ensures r.body.Keys == RoutingKeys + {"documents"}
    ensures Routed(r.body, collection, data.database, data.dataSource)
    ensures r.body["documents"].JArr?
    ensures |r.body["documents"].items| == |documents|
    ensures forall i :: 0 <= i < |documents| ==> r.body["documents"].items[i] == documents[i]
  {
    Fetch(data, InsertManyAction,
          EncodeInsert(InsertRequest(collection, data.database, data.dataSource, documents)))
  }

  // ------------------------------------------------------ updateOne/updateMany

  /** The update body: routing fields, `filter` and `update` always, `upsert` only when given. */
  predicate HasUpdateBody(body: map<string, Json>, data: MongoData, collection: string,
                          filter: Json, update: Json, upsert: Option<bool>) {
    && body.Keys == RoutingKeys + {"filter", "update"} + KeyIf(upsert.Some?, "upsert")
    && Routed(body, collection, data.database, data.dataSource)
    && body["filter"] == filter && body["update"] == update
    && (upsert.Some? ==> body["upsert"] == JBool(upsert.value))
  }

  function UpdateOne(data: MongoData, collection: string, filter: Json, update: Json,
                     upsert: Option<bool> := None): (r: Request)
    ensures Sends(r, data, UpdateOneAction)
    ensures HasUpdateBody(r.body, data, collection, filter, update, upsert)
  {
    Fetch(data, UpdateOneAction,
          EncodeUpdate(UpdateRequest(collection, data.database, data.dataSource, filter, update, upsert)))
  }

  function UpdateMany(data: MongoData, collection: string, filter: Json, update: Json,
                      upsert: Option<bool> := None): (r: Request)
    ensures Sends(r, data, UpdateManyAction)
    ensures HasUpdateBody(r.body, data, collection, filter, update, upsert)
  {
    Fetch(data, UpdateManyAction,
          EncodeUpdate(UpdateRequest(collection, data.database, data.dataSource, filter, update, upsert)))
  }

  /** `updateOne` and `updateMany` send the same headers and body, to different URLs. */
  lemma UpdateOneManyDifferOnlyInURL(data: MongoData, collection: string, filter: Json, update: Json,
                                     upsert: Option<bool>)
    ensures var one := UpdateOne(data, collection, filter, update, upsert);
            var many := UpdateMany(data, collection, filter, update, upsert);
            one.body == many.body && one.headers == many.headers && one.verb == many.verb
            && one.url != many.url
  {
    EndpointsDistinct(data.baseURL, UpdateOneAction, UpdateManyAction);
  }

  // --------------------------------------------------------------- replaceOne

  function ReplaceOne(data: MongoData, collection: string, filter: Json, replacement: Json,
                      upsert: Option<bool> := None): (r: Request)
    ensures Sends(r, data, ReplaceOneAction)
    ensures r.body.Keys == RoutingKeys + {"filter", "replacement"} + KeyIf(upsert.Some?, "upsert")
    ensures Routed(r.body, collection, data.database, data.dataSource)
    ensures r.body["filter"] == filter && r.body["replacement"] == replacement
    ensures upsert.Some? ==> r.body["upsert"] == JBool(upsert.value)
  {
    Fetch(data, ReplaceOneAction,
          EncodeReplace(ReplaceRequest(collection, data.database, data.dataSource, filter, replacement, upsert)))
  }

  // ---------------------------------------------------------------- deleteOne

  function DeleteOne(data: MongoData, collection: string, filter: Json): (r: Request)
    ensures Sends(r, data, DeleteOneAction)
    ensures r.body.Keys == RoutingKeys + {"filter"}
    ensures Routed(r.body, collection, data.database, data.dataSource)
    ensures r.body["filter"] == filter
  {
    Fetch(data, DeleteOneAction,
          EncodeDelete(DeleteRequest(collection, data.database, data.dataSource, filter)))
  }

  // ---------------------------------------------------------------- aggregate

  function Aggregate(data: MongoData, collection: string, pipeline: seq<Json>): (r: Request)
    ensures Sends(r, data, AggregateAction)
    ensures r.body.Keys == RoutingKeys + {"pipeline"}
    ensures Routed(r.body, collection, data.database, data.dataSource)
    ensures r.body["pipeline"].JArr?
    ensures |r.body["pipeline"].items| == |pipeline|
    ensures forall i :: 0 <= i < |pipeline| ==> r.body["pipeline"].items[i] == pipeline[i]
  {
    Fetch(data, AggregateAction,
          EncodeAggregate(AggregateRequest(collection, data.database, data.dataSource, pipeline)))
  }

  // ---------------------------------------------------------------- responses

  /** Projects the payload out of a single-document response. */
  function UnwrapDocument<C>(d: MongoDocument<C>): (r: C)
    ensures MongoDocument(r) == d
  {
    d.document
  }

  /** Projects the payload out of a multi-document response. */
  function UnwrapDocuments<C>(d: MongoDocuments<C>): (r: C)
    ensures MongoDocuments(r) == d
  {
    d.documents
  }

  /** `decodeDocument(from:)`: decode the `MongoDocument` wrapper, then unwrap it. */
  function DecodeDocument(body: Json): (r: Result<Json>)
    ensures r.Ok? <==> body.JObj? && "document" in body.fields
    ensures r.Ok? ==> r.value == body.fields["document"]
    ensures r.Err? ==> r.error == if body.JObj? then KeyNotFound("document") else NotAnObject
  {
    var d :- DecodeMongoDocument(body);
    Ok(UnwrapDocument(d))
  }

  /** `decodeDocuments(from:)`: decode the `MongoDocuments` wrapper, then unwrap it. */
  function DecodeDocuments(body: Json): (r: Result<Json>)
    ensures r.Ok? <==> body.JObj? && "documents" in body.fields
    ensures r.Ok? ==> r.value == body.fields["documents"]
    ensures r.Err? ==> r.error == if body.JObj? then KeyNotFound("documents") else NotAnObject
  {
    var d :- DecodeMongoDocuments(body);
    Ok(UnwrapDocuments(d))
  }

  /** Decoding a wrapped document gives back exactly the payload that was wrapped. */
  lemma DecodeDocumentRoundTrip(payload: Json)
    ensures DecodeDocument(EncodeDocument(MongoDocument(payload))) == Ok(payload)
  {
  }

  lemma DecodeDocumentsRoundTrip(payload: Json)
    ensures DecodeDocuments(EncodeDocuments(MongoDocuments(payload))) == Ok(payload)
  {
  }
}
