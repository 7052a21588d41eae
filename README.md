# MongoManager in Dafny

A model of MongoManager, a Swift client for the MongoDB Atlas Data API. The
client maps nine database actions onto HTTP requests: `findOne`, `find`,
`insertOne`, `insertMany`, `updateOne`, `updateMany`, `replaceOne`, `deleteOne`
and `aggregate`. It also unwraps typed results from the `{"document": …}` and
`{"documents": …}` response envelopes.

Each action builds the same four things:

- the URL `baseURL + "/action/" + <action>`;
- the method, always POST;
- the header map of `headers(for:)`;
- a JSON body, which is a `Codable` envelope struct holding the collection,
  the database and data source of the `MongoData`, and the action's own
  arguments.

The model has three modules:

- `Json` (json.dfy): the JSON values that bodies are made of. It also holds
  the keyed-container steps that Swift's synthesized `Codable` performs.
  `PutIfPresent` is `encodeIfPresent`; the `Get…` functions are `decode` and
  `decodeIfPresent`. Swift's `Int` is the newtype `Int64`, on the assumption
  of a 64-bit target; a 32-bit target would only narrow the range of `limit`
  and `skip`.
- `Envelopes` (envelopes.dfy): one datatype per request struct, and the
  `MongoDocument`/`MongoDocuments` wrappers. For each struct, `Encode…` gives
  the JSON object written for it and `Decode…` gives the synthesized
  `init(from:)`. Round-trip lemmas connect the two in both directions.
- `MongoManager` (mongo_manager.dfy): `MongoData` with its defaults,
  `Headers`, the action endpoints, and one function per public builder
  overload. It also holds the unwrap functions and `DecodeDocument(s)`.
  Each builder returns a `Request(url, verb, headers, body)` value. In the
  source this is what gets passed to `fetch`.

Behaviour kept exactly as the code has it:

- `Accept` is filled from `accessControlRequestHeaders`, not from `accept`.
  With the defaults, `Accept` is therefore `*`.
- A missing API key is sent as an empty `api-key` header.
- The `findOne` and `find` overloads that take no filter, projection or sort
  put the empty object `{}` in its place. In every `findOne` and `find` body
  those keys are present: the code always passes a value to the envelope's
  optional property. `FindOneDefaultSendsEmptyObjects` and
  `FindDefaultSendsEmptyObjects` state what decoding such a body back into
  its envelope struct gives.
- The only keys that really are left out when not given are `limit`, `skip`
  and `upsert`. They are never written as `null`.

## Model

| member | source | states |
|---|---|---|
| `MongoManager.Headers` | Sources/MongoManager/MongoManager.swift:57-64 | exactly the four keys Content-Type, Access-Control-Request-Headers, Accept and api-key; Accept equals Access-Control-Request-Headers; api-key is the key or `""` when there is none |
| `MongoManager.HeadersIgnoreAccept` | Sources/MongoManager/MongoManager.swift:57-64 | changing the `accept` field of `MongoData` never changes the headers |
| `MongoManager.HeaderCount` | Sources/MongoManager/MongoManager.swift:57-64 | every request carries exactly four headers, so api-key is never omitted |
| `MongoManager.DefaultHeaders` | Sources/MongoManager/MongoManager.swift:14-20 | with the initializer's defaults, Content-Type is `application/json` and Accept is `*`, which differs from the `accept` field |
| `MongoManager.ActionOf` | Sources/MongoManager/MongoManager.swift:73-74 | any action read back from a URL is one whose endpoint is exactly that URL |
| `MongoManager.ActionOfEndpoint` | Sources/MongoManager/MongoManager.swift:73-74 | the action can be read back from its endpoint `baseURL + "/action/" + name` |
| `MongoManager.EndpointsDistinct` | Sources/MongoManager/MongoManager.swift:73-325 | two different actions never share a URL, for any base URL |
| `MongoManager.Fetch` | Sources/MongoManager/MongoManager.swift:73-77 | the request goes to the action's endpoint by POST, with the connection's headers and the given body |
| `MongoManager.FindOne` | Sources/MongoManager/MongoManager.swift:72-78 | findOne endpoint, POST, headers; body keys are exactly the routing keys plus filter and projection, holding the caller's values |
| `MongoManager.FindOneDefault` | Sources/MongoManager/MongoManager.swift:84-86 | as findOne, with filter and projection both `{}` (present, not absent) |
| `MongoManager.FindOneWithFilter` | Sources/MongoManager/MongoManager.swift:93-95 | as findOne, with the caller's filter and projection `{}` |
| `MongoManager.FindOneWithProjection` | Sources/MongoManager/MongoManager.swift:102-104 | as findOne, with filter `{}` and the caller's projection |
| `MongoManager.FindOneDefaultSendsEmptyObjects` | Sources/MongoManager/MongoManager.swift:84-86 | decoding that body gives filter and projection as present empty objects |
| `MongoManager.Find` | Sources/MongoManager/MongoManager.swift:115-127 | find endpoint, POST, headers; body has routing keys, filter, projection and sort with the caller's values; limit and skip appear exactly when given, as the given integers |
| `MongoManager.FindDefault` | Sources/MongoManager/MongoManager.swift:135-137 | as find, with filter, projection and sort all `{}`; limit and skip default to absent |
| `MongoManager.FindWithFilter` | Sources/MongoManager/MongoManager.swift:146-152 | as find, with projection and sort `{}` |
| `MongoManager.FindWithFilterProjection` | Sources/MongoManager/MongoManager.swift:162-169 | as find, with sort `{}` |
| `MongoManager.FindWithFilterSort` | Sources/MongoManager/MongoManager.swift:179-186 | as find, with projection `{}` |
| `MongoManager.FindWithProjection` | Sources/MongoManager/MongoManager.swift:195-201 | as find, with filter and sort `{}` |
| `MongoManager.FindWithProjectionSort` | Sources/MongoManager/MongoManager.swift:211-218 | as find, with filter `{}` |
| `MongoManager.FindWithSort` | Sources/MongoManager/MongoManager.swift:227-233 | as find, with filter and projection `{}` |
| `MongoManager.FindDefaultSendsEmptyObjects` | Sources/MongoManager/MongoManager.swift:135-137 | decoding that body gives `{}` for filter, projection and sort, and exactly the limit and skip given (`nil` when left out) |
| `MongoManager.InsertOne` | Sources/MongoManager/MongoManager.swift:240-246 | insertOne endpoint, POST, headers; body is exactly the routing keys plus `document`, holding the caller's document |
| `MongoManager.InsertMany` | Sources/MongoManager/MongoManager.swift:253-259 | insertMany endpoint; body is the routing keys plus `documents`, an array of the same length and order as the argument |
| `MongoManager.UpdateOne` | Sources/MongoManager/MongoManager.swift:268-274 | updateOne endpoint; body has routing keys, filter and update always, upsert exactly when given |
| `MongoManager.UpdateMany` | Sources/MongoManager/MongoManager.swift:283-289 | updateMany endpoint; same body as updateOne |
| `MongoManager.UpdateOneManyDifferOnlyInURL` | Sources/MongoManager/MongoManager.swift:268-289 | for the same arguments, updateOne and updateMany send the same body, headers and method, to different URLs |
| `MongoManager.ReplaceOne` | Sources/MongoManager/MongoManager.swift:298-304 | replaceOne endpoint; body has routing keys, filter and replacement always, upsert exactly when given |
| `MongoManager.DeleteOne` | Sources/MongoManager/MongoManager.swift:311-317 | deleteOne endpoint; body is exactly the routing keys plus the caller's filter |
| `MongoManager.Aggregate` | Sources/MongoManager/MongoManager.swift:324-330 | aggregate endpoint; body is the routing keys plus `pipeline`, an array of the same length and order as the argument |
| `MongoManager.UnwrapDocument` | Sources/MongoManager/MongoManager.swift:34-36 | wrapping the result again gives back the input envelope |
| `MongoManager.UnwrapDocuments` | Sources/MongoManager/MongoManager.swift:46-48 | wrapping the result again gives back the input envelope |
| `MongoManager.DecodeDocument` | Sources/MongoManager/MongoManager.swift:41-43 | succeeds exactly when the body is an object with a `document` key and returns its value unchanged; otherwise fails with the missing key (or not-an-object) and no value |
| `MongoManager.DecodeDocuments` | Sources/MongoManager/MongoManager.swift:53-55 | the same for the `documents` key |
| `MongoManager.DecodeDocumentRoundTrip` | Sources/MongoManager/MongoManager.swift:333-335 | decoding `{"document": x}` gives back `x` |
| `MongoManager.DecodeDocumentsRoundTrip` | Sources/MongoManager/MongoManager.swift:337-339 | decoding `{"documents": x}` gives back `x` |
| `Envelopes.EncodeDocument` | Sources/MongoManager/MongoManager.swift:333-335 | the single-document envelope is an object whose only key is `document` |
| `Envelopes.EncodeDocuments` | Sources/MongoManager/MongoManager.swift:337-339 | the multi-document envelope is an object whose only key is `documents` |
| `Envelopes.DecodeMongoDocument` | Sources/MongoManager/MongoManager.swift:333-335 | succeeds exactly when the `document` key is present and carries its value; otherwise fails with the missing key |
| `Envelopes.DecodeMongoDocuments` | Sources/MongoManager/MongoManager.swift:337-339 | succeeds exactly when the `documents` key is present and carries its value; otherwise fails with the missing key |
| `Envelopes.DecodeRouting` | Sources/MongoManager/MongoManager.swift:342-344 | succeeds exactly when collection, database and dataSource are all present strings, and returns those strings |
| `Envelopes.EncodeInsertOne` | Sources/MongoManager/MongoManager.swift:341-346 | keys are exactly the routing keys plus `document`, holding the struct's values |
| `Envelopes.DecodeInsertOne` | Sources/MongoManager/MongoManager.swift:341-346 | what it accepts re-encodes to a part of its input; a missing `document` fails |
| `Envelopes.InsertOneRoundTrip` | Sources/MongoManager/MongoManager.swift:341-346 | decoding the encoding gives back the struct |
| `Envelopes.EncodeInsert` | Sources/MongoManager/MongoManager.swift:348-353 | keys are exactly the routing keys plus `documents`, an array of the struct's documents |
| `Envelopes.DecodeInsert` | Sources/MongoManager/MongoManager.swift:348-353 | what it accepts re-encodes to a part of its input; a missing `documents` fails |
| `Envelopes.InsertRoundTrip` | Sources/MongoManager/MongoManager.swift:348-353 | decoding the encoding gives back the struct |
| `Envelopes.EncodeFindOne` | Sources/MongoManager/MongoManager.swift:355-361 | routing keys always; filter and projection appear exactly when set, with their values |
| `Envelopes.DecodeFindOne` | Sources/MongoManager/MongoManager.swift:355-361 | what it accepts re-encodes to a part of its input; an absent filter or projection reads as nil |
| `Envelopes.FindOneRoundTrip` | Sources/MongoManager/MongoManager.swift:355-361 | decoding the encoding gives back the struct |
| `Envelopes.EncodeFind` | Sources/MongoManager/MongoManager.swift:363-372 | routing keys always; filter, projection, sort, limit and skip appear exactly when set, limit and skip as JSON integers |
| `Envelopes.DecodeFind` | Sources/MongoManager/MongoManager.swift:363-372 | each optional key is present exactly when the decoded property is set, with the same value; a non-integer limit fails |
| `Envelopes.FindDecodeEncode` | Sources/MongoManager/MongoManager.swift:363-372 | what the find decoder accepts re-encodes to a part of the object it read |
| `Envelopes.FindRoundTrip` | Sources/MongoManager/MongoManager.swift:363-372 | decoding the encoding gives back the struct, including 64-bit limit and skip |
| `Envelopes.EncodeUpdate` | Sources/MongoManager/MongoManager.swift:374-381 | routing keys, filter and update always; upsert exactly when set, as a JSON boolean |
| `Envelopes.DecodeUpdate` | Sources/MongoManager/MongoManager.swift:374-381 | what it accepts re-encodes to a part of its input; a missing filter or update fails |
| `Envelopes.UpdateRoundTrip` | Sources/MongoManager/MongoManager.swift:374-381 | decoding the encoding gives back the struct |
| `Envelopes.EncodeReplace` | Sources/MongoManager/MongoManager.swift:383-390 | routing keys, filter and replacement always; upsert exactly when set |
| `Envelopes.DecodeReplace` | Sources/MongoManager/MongoManager.swift:383-390 | what it accepts re-encodes to a part of its input; a missing filter or replacement fails |
| `Envelopes.ReplaceRoundTrip` | Sources/MongoManager/MongoManager.swift:383-390 | decoding the encoding gives back the struct |
| `Envelopes.EncodeDelete` | Sources/MongoManager/MongoManager.swift:392-397 | keys are exactly the routing keys plus `filter` |
| `Envelopes.DecodeDelete` | Sources/MongoManager/MongoManager.swift:392-397 | what it accepts re-encodes to a part of its input; a missing filter fails |
| `Envelopes.DeleteRoundTrip` | Sources/MongoManager/MongoManager.swift:392-397 | decoding the encoding gives back the struct |
| `Envelopes.EncodeAggregate` | Sources/MongoManager/MongoManager.swift:399-404 | keys are exactly the routing keys plus `pipeline`, an array of the struct's stages |
| `Envelopes.DecodeAggregate` | Sources/MongoManager/MongoManager.swift:399-404 | what it accepts re-encodes to a part of its input; a missing pipeline fails |
| `Envelopes.AggregateRoundTrip` | Sources/MongoManager/MongoManager.swift:399-404 | decoding the encoding gives back the struct |
| `Json.PutIfPresent` | Sources/MongoManager/MongoManager.swift:359-360 | an optional property adds its key only when it holds a value, and leaves every other key as it was |
| `Json.GetOptInt` | Sources/MongoManager/MongoManager.swift:370-371 | an absent key reads as nil; a present integer that fits in 64 bits reads as that integer, one that does not fails as out of range; a present non-integer fails with a type mismatch |

## Left out

- The `fetch` call and `FetchResponse` (lines 73-77 and their siblings): sending the request is asynchronous network I/O through the Compute package, which is not part of this model. Each builder returns the request instead. The `async`/`throws` plumbing and transport errors go with it.
- `res.body.decode(...)` in `decodeDocument(from:)` and `decodeDocuments(from:)`: turning the response bytes into JSON is Foundation's parser, which is not part of this model. `DecodeDocument(s)` start from an already parsed JSON value.
- Key order and text layout of the encoded JSON: Foundation's `JSONEncoder` is not part of this model. A body is a map from key to value.
- Generic payload types: every `Codable` argument (filter, projection, sort, document, update, replacement, pipeline stage, response payload) is a `Json` value. So decoding a payload can never fail on its shape, and a payload whose own `Codable` encoding fails is not modelled. The unwrap functions for `MongoDocument` and `MongoDocuments` stay generic.
- JSON `null`: the `Json` datatype has no `null`. No envelope writes it, because optional properties are left out when nil. A payload that encodes to `null`, and reading `null` for an optional key, are not modelled.
- Floating-point JSON numbers: not in the `Json` datatype. No envelope property is a floating-point number.
- Package.swift: a build manifest with no logic.

