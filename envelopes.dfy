/**
  The `Codable` structs of MongoManager: the request envelopes sent as the
  JSON body of each Data API action, and the `MongoDocument`/`MongoDocuments`
  wrappers that responses arrive in.

  Each `Encode…` is what the synthesized `Encodable` conformance writes: every
  non-optional property under its own name, and an optional property only when
  it holds a value (`encodeIfPresent`, so never a `null`). Each `Decode…` is the
  synthesized `Decodable` initializer: properties are read in declaration
  order, the first missing or ill-typed required key fails, an absent optional
  key reads as `nil`, unknown keys are ignored.
 */
module Envelopes {
  import opened Json

  datatype InsertOneRequest = InsertOneRequest(
    collection: string, database: string, dataSource: string, document: Json)

  datatype InsertRequest = InsertRequest(
    collection: string, database: string, dataSource: string, documents: seq<Json>)

  datatype FindOneRequest = FindOneRequest(
    collection: string, database: string, dataSource: string,
    filter: Option<Json>, projection: Option<Json>)

  datatype FindRequest = FindRequest(
    collection: string, database: string, dataSource: string,
    filter: Option<Json>, projection: Option<Json>, sort: Option<Json>,
    limit: Option<Int64>, skip: Option<Int64>)

  datatype UpdateRequest = UpdateRequest(
    collection: string, database: string, dataSource: string,
    filter: Json, update: Json, upsert: Option<bool>)

  datatype ReplaceRequest = ReplaceRequest(
    collection: string, database: string, dataSource: string,
    filter: Json, replacement: Json, upsert: Option<bool>)

  datatype DeleteRequest = DeleteRequest(
    collection: string, database: string, dataSource: string, filter: Json)

  datatype AggregateRequest = AggregateRequest(
    collection: string, database: string, dataSource: string, pipeline: seq<Json>)

  /** A single-document response, `{"document": …}`. */
  datatype MongoDocument<C> = MongoDocument(document: C)

  /** A multi-document response, `{"documents": …}`. */
  datatype MongoDocuments<C> = MongoDocuments(documents: C)

  /** `{k}` when the optional property `k` holds a value, `{}` otherwise. */
  function KeyIf(present: bool, k: string): set<string> {
    if present then {k} else {}
  }

  /** The three routing keys every request envelope starts with. */
  const RoutingKeys: set<string> := {"collection", "database", "dataSource"}

  /** The object carries the three routing fields with exactly these strings. */
  predicate Routed(body: map<string, Json>, collection: string, database: string, dataSource: string) {
    && "collection" in body && body["collection"] == JStr(collection)
    && "database" in body && body["database"] == JStr(database)
    && "dataSource" in body && body["dataSource"] == JStr(dataSource)
  }

  /** The optional property `v` appears under `k` exactly when it is set, with its value. */
  predicate Carries(body: map<string, Json>, k: string, v: Option<Json>) {
    (k in body <==> v.Some?) && (v.Some? ==> body[k] == v.value)
  }

  /** Every key of `part` is in `whole` with the same value. */
  predicate SubMap(part: map<string, Json>, whole: map<string, Json>) {
    forall k :: k in part ==> k in whole && whole[k] == part[k]
  }

  function RoutingFields(collection: string, database: string, dataSource: string): (m: map<string, Json>)
    ensures m.Keys == RoutingKeys && Routed(m, collection, database, dataSource)
  {
    map["collection" := JStr(collection), "database" := JStr(database), "dataSource" := JStr(dataSource)]
  }

  /** The routing fields as `init(from:)` reads them, in declaration order. */
  function DecodeRouting(m: map<string, Json>): (r: Result<(string, string, string)>)
    ensures r.Ok? <==> (forall k :: k in RoutingKeys ==> k in m && m[k].JStr?)
    ensures r.Ok? ==> Routed(m, r.value.0, r.value.1, r.value.2)
  {
    var collection :- GetString(m, "collection");
    var database :- GetString(m, "database");
    var dataSource :- GetString(m, "dataSource");
    Ok((collection, database, dataSource))
  }

  // ---------------------------------------------------------------- insertOne

  function EncodeInsertOne(e: InsertOneRequest): (body: map<string, Json>)
    ensures body.Keys == RoutingKeys + {"document"}
    ensures Routed(body, e.collection, e.database, e.dataSource)
    ensures body["document"] == e.document
  {
    RoutingFields(e.collection, e.database, e.dataSource)["document" := e.document]
  }

  function DecodeInsertOne(body: Json): (r: Result<InsertOneRequest>)
    ensures r.Ok? ==> body.JObj? && SubMap(EncodeInsertOne(r.value), body.fields)
    ensures body.JObj? && "document" !in body.fields ==> r.Err?
  {
    if !body.JObj? then Err(NotAnObject)
    else
      var (collection, database, dataSource) :- DecodeRouting(body.fields);
      var document :- GetValue(body.fields, "document");
      Ok(InsertOneRequest(collection, database, dataSource, document))
  }

  lemma InsertOneRoundTrip(e: InsertOneRequest)
    ensures DecodeInsertOne(JObj(EncodeInsertOne(e))) == Ok(e)
  {
  }

  // --------------------------------------------------------------- insertMany

  function EncodeInsert(e: InsertRequest): (body: map<string, Json>)
    ensures body.Keys == RoutingKeys + {"documents"}
    ensures Routed(body, e.collection, e.database, e.dataSource)
    ensures body["documents"].JArr? && body["documents"].items == e.documents
  {
    RoutingFields(e.collection, e.database, e.dataSource)["documents" := JArr(e.documents)]
  }

  function DecodeInsert(body: Json): (r: Result<InsertRequest>)
    ensures r.Ok? ==> body.JObj? && SubMap(EncodeInsert(r.value), body.fields)
    ensures body.JObj? && "documents" !in body.fields ==> r.Err?
  {
    if !body.JObj? then Err(NotAnObject)
    else
      var (collection, database, dataSource) :- DecodeRouting(body.fields);
      var documents :- GetArray(body.fields, "documents");
      Ok(InsertRequest(collection, database, dataSource, documents))
  }

  lemma InsertRoundTrip(e: InsertRequest)
    ensures DecodeInsert(JObj(EncodeInsert(e))) == Ok(e)
  {
  }

  // ------------------------------------------------------------------ findOne

  function EncodeFindOne(e: FindOneRequest): (body: map<string, Json>)
    ensures body.Keys == RoutingKeys + KeyIf(e.filter.Some?, "filter") + KeyIf(e.projection.Some?, "projection")
    ensures Routed(body, e.collection, e.database, e.dataSource)
    ensures Carries(body, "filter", e.filter) && Carries(body, "projection", e.projection)
  {
    var m := RoutingFields(e.collection, e.database, e.dataSource);
    PutIfPresent(PutIfPresent(m, "filter", e.filter), "projection", e.projection)
  }

  function DecodeFindOne(body: Json): (r: Result<FindOneRequest>)
    ensures r.Ok? ==> body.JObj? && SubMap(EncodeFindOne(r.value), body.fields)
    ensures r.Ok? ==> Carries(body.fields, "filter", r.value.filter)
    ensures r.Ok? ==> Carries(body.fields, "projection", r.value.projection)
  {
    if !body.JObj? then Err(NotAnObject)
    else
      var (collection, database, dataSource) :- DecodeRouting(body.fields);
      var filter := GetOptValue(body.fields, "filter");
      var projection := GetOptValue(body.fields, "projection");
      Ok(FindOneRequest(collection, database, dataSource, filter, projection))
  }

  lemma FindOneRoundTrip(e: FindOneRequest)
    ensures DecodeFindOne(JObj(EncodeFindOne(e))) == Ok(e)
  {
  }

  // --------------------------------------------------------------------- find

  function EncodeFind(e: FindRequest): (body: map<string, Json>)
    ensures body.Keys == RoutingKeys + KeyIf(e.filter.Some?, "filter")
      + KeyIf(e.projection.Some?, "projection") + KeyIf(e.sort.Some?, "sort")
      + KeyIf(e.limit.Some?, "limit") + KeyIf(e.skip.Some?, "skip")
    ensures Routed(body, e.collection, e.database, e.dataSource)
    ensures Carries(body, "filter", e.filter) && Carries(body, "projection", e.projection)
    ensures Carries(body, "sort", e.sort)
    ensures Carries(body, "limit", IntField(e.limit)) && Carries(body, "skip", IntField(e.skip))
  {
    var m := RoutingFields(e.collection, e.database, e.dataSource);
    var withFilter := PutIfPresent(m, "filter", e.filter);
    var withProjection := PutIfPresent(withFilter, "projection", e.projection);
    var withSort := PutIfPresent(withProjection, "sort", e.sort);
    var withLimit := PutIfPresent(withSort, "limit", IntField(e.limit));
    PutIfPresent(withLimit, "skip", IntField(e.skip))
  }

  function DecodeFind(body: Json): (r: Result<FindRequest>)
    ensures r.Ok? ==> body.JObj? && Routed(body.fields, r.value.collection, r.value.database, r.value.dataSource)
    ensures r.Ok? ==> Carries(body.fields, "filter", r.value.filter)
    ensures r.Ok? ==> Carries(body.fields, "projection", r.value.projection)
    ensures r.Ok? ==> Carries(body.fields, "sort", r.value.sort)
    ensures r.Ok? ==> Carries(body.fields, "limit", IntField(r.value.limit))
    ensures r.Ok? ==> Carries(body.fields, "skip", IntField(r.value.skip))
    ensures body.JObj? && "limit" in body.fields && !body.fields["limit"].JInt? ==> r.Err?
  {
    if !body.JObj? then Err(NotAnObject)
    else
      var m := body.fields;
      var (collection, database, dataSource) :- DecodeRouting(m);
      var filter := GetOptValue(m, "filter");
      var projection := GetOptValue(m, "projection");
      var sort := GetOptValue(m, "sort");
      var limit :- GetOptInt(m, "limit");
      var skip :- GetOptInt(m, "skip");
      Ok(FindRequest(collection, database, dataSource, filter, projection, sort, limit, skip))
  }

  /** Writing an optional property that the object carries keeps the encoding inside it. */
  lemma PutCarried(part: map<string, Json>, k: string, v: Option<Json>, whole: map<string, Json>)
    requires SubMap(part, whole) && Carries(whole, k, v)
    ensures SubMap(PutIfPresent(part, k, v), whole)
  {
  }

  /** An object that carries every field of `e` holds all of `e`'s encoding. */
  lemma FindEncodingIn(e: FindRequest, m: map<string, Json>)
    requires Routed(m, e.collection, e.database, e.dataSource)
    requires Carries(m, "filter", e.filter) && Carries(m, "projection", e.projection)
    requires Carries(m, "sort", e.sort)
    requires Carries(m, "limit", IntField(e.limit)) && Carries(m, "skip", IntField(e.skip))
    ensures SubMap(EncodeFind(e), m)
  {
    var routing := RoutingFields(e.collection, e.database, e.dataSource);
    assert SubMap(routing, m);
    var withFilter := PutIfPresent(routing, "filter", e.filter);
    PutCarried(routing, "filter", e.filter, m);
    var withProjection := PutIfPresent(withFilter, "projection", e.projection);
    PutCarried(withFilter, "projection", e.projection, m);
    var withSort := PutIfPresent(withProjection, "sort", e.sort);
    PutCarried(withProjection, "sort", e.sort, m);
    var withLimit := PutIfPresent(withSort, "limit", IntField(e.limit));
    PutCarried(withSort, "limit", IntField(e.limit), m);
    PutCarried(withLimit, "skip", IntField(e.skip), m);
  }

  /** What `DecodeFind` accepts re-encodes to a part of the object it read. */
  lemma FindDecodeEncode(body: Json)
    requires DecodeFind(body).Ok?
    ensures SubMap(EncodeFind(DecodeFind(body).value), body.fields)
  {
    FindEncodingIn(DecodeFind(body).value, body.fields);
  }

  lemma FindRoundTrip(e: FindRequest)
    ensures DecodeFind(JObj(EncodeFind(e))) == Ok(e)
  {
  }

  // ------------------------------------------------------ updateOne/updateMany

  function EncodeUpdate(e: UpdateRequest): (body: map<string, Json>)
    ensures body.Keys == RoutingKeys + {"filter", "update"} + KeyIf(e.upsert.Some?, "upsert")
    ensures Routed(body, e.collection, e.database, e.dataSource)
    ensures body["filter"] == e.filter && body["update"] == e.update
    ensures Carries(body, "upsert", BoolField(e.upsert))
  {
    var m := RoutingFields(e.collection, e.database, e.dataSource);
    PutIfPresent(m["filter" := e.filter]["update" := e.update], "upsert", BoolField(e.upsert))
  }

  function DecodeUpdate(body: Json): (r: Result<UpdateRequest>)
    ensures r.Ok? ==> body.JObj? && SubMap(EncodeUpdate(r.value), body.fields)
    ensures body.JObj? && ("filter" !in body.fields || "update" !in body.fields) ==> r.Err?
  {
    if !body.JObj? then Err(NotAnObject)
    else
      var m := body.fields;
      var (collection, database, dataSource) :- DecodeRouting(m);
      var filter :- GetValue(m, "filter");
      var update :- GetValue(m, "update");
      var upsert :- GetOptBool(m, "upsert");
      Ok(UpdateRequest(collection, database, dataSource, filter, update, upsert))
  }

  lemma UpdateRoundTrip(e: UpdateRequest)
    ensures DecodeUpdate(JObj(EncodeUpdate(e))) == Ok(e)
  {
  }

  // --------------------------------------------------------------- replaceOne

  function EncodeReplace(e: ReplaceRequest): (body: map<string, Json>)
    ensures body.Keys == RoutingKeys + {"filter", "replacement"} + KeyIf(e.upsert.Some?, "upsert")
    ensures Routed(body, e.collection, e.database, e.dataSource)
    ensures body["filter"] == e.filter && body["replacement"] == e.replacement
    ensures Carries(body, "upsert", BoolField(e.upsert))
  {
    var m := RoutingFields(e.collection, e.database, e.dataSource);
    PutIfPresent(m["filter" := e.filter]["replacement" := e.replacement], "upsert", BoolField(e.upsert))
  }

  function DecodeReplace(body: Json): (r: Result<ReplaceRequest>)
    ensures r.Ok? ==> body.JObj? && SubMap(EncodeReplace(r.value), body.fields)
    ensures body.JObj? && ("filter" !in body.fields || "replacement" !in body.fields) ==> r.Err?
  {
    if !body.JObj? then Err(NotAnObject)
    else
      var m := body.fields;
      var (collection, database, dataSource) :- DecodeRouting(m);
      var filter :- GetValue(m, "filter");
      var replacement :- GetValue(m, "replacement");
      var upsert :- GetOptBool(m, "upsert");
      Ok(ReplaceRequest(collection, database, dataSource, filter, replacement, upsert))
  }

  lemma ReplaceRoundTrip(e: ReplaceRequest)
    ensures DecodeReplace(JObj(EncodeReplace(e))) == Ok(e)
  {
  }

  // ---------------------------------------------------------------- deleteOne

  function EncodeDelete(e: DeleteRequest): (body: map<string, Json>)
    ensures body.Keys == RoutingKeys + {"filter"}
    ensures Routed(body, e.collection, e.database, e.dataSource)
    ensures body["filter"] == e.filter
  {
    RoutingFields(e.collection, e.database, e.dataSource)["filter" := e.filter]
  }

  function DecodeDelete(body: Json): (r: Result<DeleteRequest>)
    ensures r.Ok? ==> body.JObj? && SubMap(EncodeDelete(r.value), body.fields)
    ensures body.JObj? && "filter" !in body.fields ==> r.Err?
  {
    if !body.JObj? then Err(NotAnObject)
    else
      var (collection, database, dataSource) :- DecodeRouting(body.fields);
      var filter :- GetValue(body.fields, "filter");
      Ok(DeleteRequest(collection, database, dataSource, filter))
  }

  lemma DeleteRoundTrip(e: DeleteRequest)
    ensures DecodeDelete(JObj(EncodeDelete(e))) == Ok(e)
  {
  }

  // ---------------------------------------------------------------- aggregate

  function EncodeAggregate(e: AggregateRequest): (body: map<string, Json>)
    ensures body.Keys == RoutingKeys + {"pipeline"}
    ensures Routed(body, e.collection, e.database, e.dataSource)
    ensures body["pipeline"].JArr? && body["pipeline"].items == e.pipeline
  {
    RoutingFields(e.collection, e.database, e.dataSource)["pipeline" := JArr(e.pipeline)]
  }

  function DecodeAggregate(body: Json): (r: Result<AggregateRequest>)
    ensures r.Ok? ==> body.JObj? && SubMap(EncodeAggregate(r.value), body.fields)
    ensures body.JObj? && "pipeline" !in body.fields ==> r.Err?
  {
    if !body.JObj? then Err(NotAnObject)
    else
      var (collection, database, dataSource) :- DecodeRouting(body.fields);
      var pipeline :- GetArray(body.fields, "pipeline");
      Ok(AggregateRequest(collection, database, dataSource, pipeline))
  }

  lemma AggregateRoundTrip(e: AggregateRequest)
    ensures DecodeAggregate(JObj(EncodeAggregate(e))) == Ok(e)
  {
  }

  // ---------------------------------------------------------------- responses

  function EncodeDocument(d: MongoDocument<Json>): (body: Json)
    ensures body.JObj? && body.fields.Keys == {"document"}
    ensures body.fields["document"] == d.document
  {
    JObj(map["document" := d.document])
  }

  function EncodeDocuments(d: MongoDocuments<Json>): (body: Json)
    ensures body.JObj? && body.fields.Keys == {"documents"}
    ensures body.fields["documents"] == d.documents
  {
    JObj(map["documents" := d.documents])
  }

  /** `decode(MongoDocument<C>.self)`: fails unless the body is an object with a `document` key. */
  function DecodeMongoDocument(body: Json): (r: Result<MongoDocument<Json>>)
    ensures r.Ok? <==> body.JObj? && "document" in body.fields
    ensures r.Ok? ==> r.value.document == body.fields["document"]
    ensures r.Err? ==> r.error == if body.JObj? then KeyNotFound("document") else NotAnObject
  {
    if !body.JObj? then Err(NotAnObject)
    else
      var document :- GetValue(body.fields, "document");
      Ok(MongoDocument(document))
  }

  /** `decode(MongoDocuments<C>.self)`: fails unless the body is an object with a `documents` key. */
  function DecodeMongoDocuments(body: Json): (r: Result<MongoDocuments<Json>>)
    ensures r.Ok? <==> body.JObj? && "documents" in body.fields
    ensures r.Ok? ==> r.value.documents == body.fields["documents"]
    ensures r.Err? ==> r.error == if body.JObj? then KeyNotFound("documents") else NotAnObject
  {
    if !body.JObj? then Err(NotAnObject)
    else
      var documents :- GetValue(body.fields, "documents");
      Ok(MongoDocuments(documents))
  }
}
