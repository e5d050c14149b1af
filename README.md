# polyclay-redis adapter, modelled in Dafny

This project models the Redis persistence adapter of polyclay (`index.js`).
The adapter stores each document of a collection `dbname` in three places:

- a Redis hash `dbname:key` holding the document's fields, each JSON-encoded on its own;
- a hash `dbname:key:attaches` holding one self-describing JSON record per attachment;
- in a persistent collection, the key as a member of the set `dbname:ids`.

An ephemeral collection keeps no id set. Instead it gives document hashes a deadline through EXPIRE / EXPIREAT.

The model has these parts:

- **Key scheme** (`keys.dfy`): the three key builders.
- **Codec** (`codec.dfy`): `flatten` and `inflate`, as methods with loops. They are proved against the functions `Flattened` / `Inflated`. `flatten` updates its input object in place (it deletes `_attachments`), so that object is a class `JsObject`.
- **Store** (`redis.dfy`): the Redis commands the adapter sends (HMSET, HSET, HGET, HGETALL, HDEL, SADD, SREM, SMEMBERS, DEL, EXPIRE, EXPIREAT, TTL), MULTI/EXEC transactions and lazy expiry. This is the part of Redis behind the connection. The store a connection reaches is the class `Redis.Server`.
- **Engine** (`engine.dfy`): each adapter operation as a function from the store, the collection and the inputs to the completion handed to the callback and the store afterwards.
  - A thrown exception is `Threw`; an `err` passed to the callback is `Failed`; a result is `Completed`.
  - The node_redis client's reply conversions are modelled as well: an empty HGETALL becomes null, and an error reply inside EXEC's replies becomes an object with no fields.
- **Adapter** (`adapter.dfy`): the `RedisAdapter` object.
  - Its connection state: the attempt counter, the pending reconnect timer, the listeners on the current client, and the log.
  - Its operations: each method builds its command chain step by step, sends it to the server, and is proved equal to the Engine function.
- **Reconnect delay** (`connection.dfy`): `exponentialBackoff`.
- **Properties** (`save_props.dfy`, `read_props.dfy`, `mutation_props.dfy`, `attachment_props.dfy`): what each operation does to the store and answers.

Time is a parameter `now` in milliseconds (Date.now()). `Math.random()` enters as `jitter = floor(random * 2^attempt)`, any whole number below `2^attempt`. JSON.stringify / JSON.parse are a pair of functions (`Json.Serializer`). Where a proof needs parse to undo stringify, it says so with the hypothesis `RoundTrips`. Where it needs a stringified value never to be the empty string, it uses `NeverEmpty`.

Behaviour of the code that the model keeps, and proves:

- `save` of an object without a truthy `_attachments` throws: `Object.keys(payload.attachments)` gets `undefined`.
- `save` of an object whose body is empty after flattening queues an HMSET with no fields. Redis refuses the whole EXEC, and the callback then throws on `replies[0]`. See `SaveProperties.SaveEmptyBodyAborts`.
- A persistent document keyed `ids` has the collection's id set key as its hash key. When no id set exists yet, the HMSET claims that key, the SADD after it fails with WRONGTYPE, and so does every later `all()`. See `SaveProperties.SaveKeyedIdsBreaksAll`. When the id set already exists, the HMSET is the command that fails: save answers WRONGTYPE, nothing is stored, and "ids" joins the id set. See `SaveProperties.SaveKeyedIdsIntoSet`.
- `remove(x)` also deletes the document whose key is `x + ":attaches"`, because that document's hash key is `x`'s attachment key. See `MutationProperties.RemoveDeletesNeighbour`.
- In an ephemeral collection, `get` of a document that has no deadline reports `ttl = -1` and `expire_at` one second in the past. Saving that object back sends EXPIREAT for that past second, and Redis deletes the document. See `ReadProperties.GetThenResaveDeletes`.
- `get` of a key that holds a set answers a document with no fields instead of an error. See `ReadProperties.GetNeverFails`.
- `destroyMany([])` queues DEL with no keys, and Redis refuses the EXEC. See `MutationProperties.DestroyNothing`. `index.js` does not special-case the empty list, so the callback receives the EXECABORT error and the store is unchanged; it is not a silent no-op.
- Inside EXEC, Redis does not roll back a command that fails at run time (WRONGTYPE). It refuses the whole transaction only for a command malformed at queue time. The model follows Redis here rather than a reading of "the whole batch aborts".

## Model

| member | source | states |
|---|---|---|
| KeyScheme.HashKeyInjective | index.js:78-81 | distinct keys of one collection get distinct document hash keys, and equal keys equal ones |
| KeyScheme.AttachmentKeyInjective | index.js:83-86 | distinct keys get distinct attachment hash keys |
| KeyScheme.HashKeyIsIdsKey | index.js:78-91 | a document hash key is the id set key exactly when the document key is "ids" |
| KeyScheme.HashKeyIsAttachmentKey | index.js:78-86 | the hash key of `k2` is the attachment key of `k` exactly when `k2 == k + ":attaches"` |
| KeyScheme.AttachmentKeyDistinct | index.js:78-91 | a document's attachment key differs from its own hash key and from the id set key |
| Json.Property | index.js:306-313 | reading a property of an object is defined exactly when the object has it; null, booleans and numbers have none |
| Codec.EncodeAttachments | index.js:300-315 | the attachment loop throws exactly when an entry is null; otherwise there is one record per entry name, each the encoding of `{body, content_type, length, name}` |
| Codec.EncodeBody | index.js:319-324 | the body loop encodes every field of the object on its own, under the same name |
| Codec.Flatten | index.js:295-327 | flatten's payload is `Flattened` of the input, and the input object is left without `_attachments` when that field was split off |
| Codec.Inflate | index.js:267-293 | inflate of null gives nothing; otherwise every stored field is decoded, or kept as a raw string when parsing fails, over an empty `_attachments` |
| Codec.FlattenedBody | index.js:319-324 | the body holds exactly the input fields, without `_attachments` when split off, each encoded |
| Codec.FlattenedOutcome | index.js:300-317 | flatten throws if and only if `_attachments` is truthy and has a null entry; `payload.attachments` is defined if and only if `_attachments` is truthy |
| Codec.AttachmentRecordFields | index.js:306-314 | an attachment record carries its own name, plus `body`, `content_type` and `length` exactly where the entry defines them |
| Codec.AttachmentRecordsSelfDescribing | index.js:303-315 | the attachment hash has one field per entry, and each decodes back to that entry's record |
| Codec.InflatedNull | index.js:269-270 | inflate of null gives nothing, not an empty object |
| Codec.InflatedFields | index.js:272-289 | inflated keys are the stored fields plus `_attachments`; a parsable field is its parse, any other is its raw string |
| Codec.FlattenInflateRoundTrip | index.js:267-327 | inflating a flattened body gives back the object flatten left, over an empty `_attachments` |
| Redis.Purge | index.js:111-117 | lazy expiry: exactly the keys whose deadline is before `now` are gone (a key is still there at its deadline), the rest keep their values and deadlines, and well-formedness is kept |
| Redis.TransactionRuns | index.js:119-122 | EXEC of a well-formed chain runs it in order on the expired-swept store; a malformed command refuses the whole chain and changes nothing |
| Redis.TransactionValid | index.js:119-122 | every transaction keeps the store free of empty hashes and sets and of deadlines on absent keys |
| Redis.SingleValid | index.js:197-200 | a command sent on its own (merge's HMSET, and likewise saveAttachment's HSET and removeAttachment's HDEL) keeps the store well formed |
| Redis.Server.Exec | index.js:101-122 | the server's new store and EXEC reply are the transaction's |
| Redis.Server.Call | index.js:197-200 | a command sent on its own runs on the expired-swept store, or is refused when malformed |
| Redis.DelEffect | index.js:234-235 | DEL removes every listed key and its deadline, leaves every other key as it was, and replies how many listed keys existed |
| Redis.SRemEffect | index.js:231-232 | SREM leaves the set without the member |
| Engine.BatchChain | index.js:163-168 | getBatch queues HGETALL then TTL for each key, in key order |
| Engine.TargetKeys | index.js:221-226 | destroyMany takes a string as its key and an object's `.key` otherwise, in order |
| Engine.HashKeys | index.js:234 | the hash keys destroyMany deletes, one per id in order |
| Engine.AttachmentKeys | index.js:235 | the attachment keys destroyMany deletes, one per id in order |
| Engine.IdRemovals | index.js:231-232 | one SREM from the id set per id, in order |
| SaveProperties.SaveRunsBatch | index.js:93-123 | past its guards, save is EXEC of its batch, answering the first reply |
| SaveProperties.SaveBatchContents | index.js:101-117 | the batch starts with HMSET of the body; SADD is in it exactly for a persistent collection; the attachment HMSET exactly when there are records; EXPIRE exactly for a positive ttl, else EXPIREAT of floor(expire_at) exactly for a positive expire_at; never both |
| SaveProperties.SaveWithoutKey | index.js:95-96 | save without a non-empty key throws and changes nothing |
| SaveProperties.SaveEmptyBodyAborts | index.js:99-122 | a save whose flattened body is empty changes nothing and throws on the missing replies |
| SaveProperties.SaveStoresBody | index.js:99-103 | the document hash holds its old fields overwritten by the body, and the callback gets "OK" |
| SaveProperties.SavePastDeadlineDeletes | index.js:111-117 | an ephemeral save asking for a deadline already past leaves no document and no deadline, yet answers "OK" |
| SaveProperties.SaveRegistersId | index.js:105-106 | a persistent save adds exactly the key to the id set |
| SaveProperties.SaveWritesAttachments | index.js:108-109 | records are merged into the attachment hash when there are any, and the hash is untouched when there are none |
| SaveProperties.SaveFrame | index.js:93-123 | save changes no key but the document hash, its attachment hash and, when persistent, the id set |
| SaveProperties.SaveKeepsDeadlines | index.js:111-117 | a save that asks for no expiry keeps every deadline, so a re-saved ephemeral document keeps its expiry |
| SaveProperties.SaveSetsDeadline | index.js:111-117 | an ephemeral save with a future deadline gives the document exactly that deadline: it is still there at that instant and gone at any later one |
| SaveProperties.SaveKeyedIdsBreaksAll | index.js:88-106 | when no id set exists yet, saving a persistent document keyed "ids" answers "OK", and every later `all()` fails with WRONGTYPE |
| SaveProperties.SaveKeyedIdsIntoSet | index.js:88-106 | when the id set already exists, saving a persistent document keyed "ids" answers WRONGTYPE, stores no document, and every later `all()` lists "ids" beside the ids it listed before |
| SaveProperties.SaveKeepsValid | index.js:93-123 | save keeps the store well formed |
| ReadProperties.GetReads | index.js:133-139 | get's transaction changes nothing beyond expiry and answers HGETALL and TTL of the document hash |
| ReadProperties.GetMissing | index.js:143-144 | get of a key with no stored document answers null, not an error |
| ReadProperties.GetFound | index.js:139-155 | get of a stored document answers its inflated fields, with the remaining ttl and matching expire_at when ephemeral |
| ReadProperties.GetNeverFails | index.js:139-146 | get always completes, and a key holding a set reads as a document with no fields |
| ReadProperties.MaterializeFields | index.js:146-153 | the document get builds has every stored field inflated, plus `ttl` and `expire_at = floor(now/1000 + ttl)` exactly when ephemeral |
| ReadProperties.SaveThenGet | index.js:93-157 | after a persistent save of a new document, get answers the saved object with an empty `_attachments` |
| ReadProperties.SaveThenGetEphemeral | index.js:111-157 | after an ephemeral save with ttl t, get answers the saved object with `ttl = t` and `expire_at = now/1000 + t` |
| ReadProperties.GetThenResaveDeletes | index.js:111-153 | an ephemeral document without deadline reads back with ttl -1 and expire_at in the past, and saving it back deletes it |
| ReadProperties.BatchReads | index.js:162-170 | getBatch's transaction only reads, answering HGETALL and TTL of every key |
| ReadProperties.CollectedStored | index.js:175-190 | the reply loop over the first k slots keeps exactly the stored documents, in key order |
| ReadProperties.ExaminedBounds | index.js:175 | the loop `i < len--` examines ceil(2n/3) of n keys: all of them for n ≤ 2, fewer from n = 3 on |
| ReadProperties.GetBatchDocuments | index.js:159-195 | getBatch answers, in key order, the stored documents among the first ceil(2n/3) keys |
| ReadProperties.GetBatchSmall | index.js:175 | for one or two keys getBatch misses no stored document |
| ReadProperties.GetBatchDropsTail | index.js:175 | with n ≥ 3 stored keys getBatch answers only ceil(2n/3) documents and never the last key's |
| ReadProperties.GetBatchOfThree | index.js:175 | three stored documents asked for together give two |
| ReadProperties.GetBatchIntendedComplete | index.js:159-195 | the corrected getBatch answers every stored document, in key order |
| ReadProperties.GetBatchAgreesWhenSmall | index.js:175 | getBatch and the corrected version agree on one or two keys |
| MutationProperties.MergeOverwrites | index.js:197-200 | merge overwrites the given fields of the document hash, keeps its other fields and every deadline, and touches no other key |
| MutationProperties.MergeNothing | index.js:197-200 | merge of nothing to store is refused with a wrong-arity error and changes nothing |
| MutationProperties.MergeWrongType | index.js:197-200 | merge into a key holding a set fails with WRONGTYPE |
| MutationProperties.RemoveDeletes | index.js:203-216 | remove deletes the document hash and its attachment hash, unregisters the key when persistent, and answers 1 or 0 by whether the document existed |
| MutationProperties.RemoveUnregisters | index.js:209-210 | remove takes exactly the key out of the id set |
| MutationProperties.RemoveFrame | index.js:203-216 | remove changes no other key |
| MutationProperties.RemoveDeletesNeighbour | index.js:203-207 | removing `x` also deletes the document keyed `x + ":attaches"` |
| MutationProperties.DestroyNothing | index.js:218-241 | destroyMany of an empty list is refused by Redis and changes nothing |
| MutationProperties.IdRemovalsEffect | index.js:231-232 | the SREMs take exactly the listed ids out of the id set and touch no other key |
| MutationProperties.DestroyManyDeletes | index.js:218-241 | destroyMany deletes every listed document and attachment hash and, when persistent, unregisters every id |
| MutationProperties.DestroyManyUnregisters | index.js:218-241 | in a persistent collection, with no id "ids" listed, the id set afterwards holds exactly its former members minus the listed ids |
| MutationProperties.DestroyManyFrame | index.js:218-241 | destroyMany changes no key outside the listed documents and the id set |
| MutationProperties.AllLists | index.js:67-76 | all answers nothing in an ephemeral collection, else the id set's members |
| AttachmentProperties.RecordBodyOfObject | index.js:250-253 | attachment hands back a truthy object-shaped body as a buffer, any other body as is, or undefined |
| AttachmentProperties.FetchMissing | index.js:245-248 | fetching an attachment that is not stored answers null |
| AttachmentProperties.FetchStored | index.js:245-254 | fetching a stored attachment answers the body of its parsed record |
| AttachmentProperties.SaveAttachmentThenFetch | index.js:243-260 | saveAttachment answers 1 for a new name and 0 for a replaced one, and fetching it back gives the saved record's body |
| AttachmentProperties.RemoveAttachmentThenFetch | index.js:243-265 | removeAttachment answers 1 or 0 by whether the name was there, removes only that field, and fetching it then answers null |
| AttachmentProperties.AttachmentWrongType | index.js:245-265 | fetching or removing an attachment under a key holding a set fails with WRONGTYPE |
| AttachmentProperties.AttachmentRecordBody | index.js:306-313 | the body fetched from a flattened record is the entry's `body`: a buffer when object-shaped, else as is, else undefined |
| AttachmentProperties.SaveThenFetchAttachment | index.js:243-255 | after save, fetching each attachment gives back its entry's body |
| Connection.Backoff | index.js:46-49 | the reconnect delay is between 10 ms and 10 s, and at most 2^attempt + 9 |
| Connection.BackoffRange | index.js:46-49 | every draw lies between 10 ms and the attempt's longest delay, which the largest draw reaches |
| Connection.LongestBackoffGrows | index.js:46-49 | the longest delay never shrinks from one attempt to the next |
| Connection.BackoffCap | index.js:46-49 | up to the 13th attempt the delay is the draw plus 10 ms; from the 14th on it can reach the 10-second cap |
| Adapter.RedisAdapter.constructor | index.js:8-19 | a new adapter has no collection name, is persistent, has zero attempts, no timer and no client |
| Adapter.RedisAdapter.Configure | index.js:21-29 | the collection name is `opts.dbname` when non-empty, else the model's plural; then a client is connected |
| Adapter.RedisAdapter.Connect | index.js:31-38 | the timer is cleared and a new client is created, with an error listener and a one-time ready listener |
| Adapter.RedisAdapter.HandleReady | index.js:40-44 | ready logs once and resets the attempt counter |
| Adapter.RedisAdapter.HandleError | index.js:51-59 | an error while a reconnect is pending is ignored; otherwise it logs, counts the attempt, detaches the error listener and arms a reconnect after `Backoff(attempts)`, which is 10 ms to 10 s |
| Adapter.RedisAdapter.ClientReady | index.js:37-44 | the ready listener runs at most once per client |
| Adapter.RedisAdapter.ClientError | index.js:51-59 | an error reaches handleError only while the listener is attached; a second error from a failed client is unhandled |
| Adapter.RedisAdapter.RetryFires | index.js:58 | the reconnect timer connects a fresh client and clears the timer |
| Adapter.RedisAdapter.Save | index.js:93-125 | save's completion and new store are `Engine.Save`'s, and the input object is left as flatten leaves it |
| Adapter.RedisAdapter.BuildDocument | index.js:146-153 | the object get builds from a hash is `Materialize` of it |
| Adapter.RedisAdapter.Get | index.js:127-157 | get's completion and new store are `Engine.Get`'s |
| Adapter.RedisAdapter.GetBatch | index.js:159-195 | getBatch's chain is `BatchChain` of the keys, and its completion and new store are `Engine.GetBatch`'s |
| Adapter.RedisAdapter.CollectBatch | index.js:175-190 | the loop `i < len--` collects the present documents of exactly the first ceil(2n/3) key slots |
| Adapter.RedisAdapter.Merge | index.js:197-200 | merge's completion and new store are `Engine.Merge`'s |
| Adapter.RedisAdapter.Remove | index.js:203-216 | remove's completion and new store are `Engine.RemoveDoc`'s |
| Adapter.RedisAdapter.DestroyMany | index.js:218-241 | destroyMany's completion and new store are `Engine.DestroyMany`'s |
| Adapter.RedisAdapter.All | index.js:67-76 | all's completion and new store are `Engine.All`'s |
| Adapter.RedisAdapter.Attachment | index.js:243-255 | attachment's completion is `Engine.FetchAttachment`'s |
| Adapter.RedisAdapter.SaveAttachment | index.js:257-260 | saveAttachment is HSET of the stringified attachment under its name |
| Adapter.RedisAdapter.RemoveAttachment | index.js:262-265 | removeAttachment is HDEL of the name |

## Left out

- Numbers are whole numbers (`Json.Value.Num` holds an `int`). Floating-point field values, `Date` objects and JSON.stringify's number formatting are not modelled; `expire_at` alone is a `real`, floored as `Math.floor` does.
- JSON.stringify / JSON.parse are abstract functions. Their round trip is assumed as a hypothesis (`RoundTrips`) wherever a proof needs it, never proved.
- `new Buffer(struct.body)` is not computed: the model answers `Buffer(body)`, marking the body that would be converted.
- The model constructor and `initFromStorage` (index.js:271, 291) belong to the object-model layer: inflate's result is the field map handed to `initFromStorage`.
- Log message text, the host and port options, and the `redis.createClient` network connection are not modelled. The client is a counter, and each log line is `ReadyLogged` or `ErrorLogged`.
- Timers and `Math.random()` are not modelled as such: the delay is computed and recorded, the draw is a parameter, and the timer firing is the method `RetryFires`.
- Asynchrony is not modelled. Each operation runs its EXEC and callback as one step against the server, and replies arriving on an abandoned client are not modelled. Operations issued before `configure` (no client yet) are not modelled.
- `provision` (index.js:61-65) does nothing but call back, so it is not modelled.
- Keys are strings. Non-string keys converted by `+` in the key builders are not modelled, nor are non-integer `ttl` values (`Instance.ttl` is an `int`).
- Object.keys of a truthy non-object `_attachments` (a string or an array) would list indices; the model gives such a value no entries.
- Adapter.RedisAdapter.SaveAttachment: requires the attachment to carry a string `name`, which HSET uses as the field. A missing or non-string name (which node_redis would send as "undefined" or convert) is not modelled.
- Adapter.RedisAdapter.Remove: takes the object's key rather than the object, since `remove` reads nothing else from it. The same holds for SaveAttachment and RemoveAttachment.
- Adapter.RedisAdapter.HandleError: requires the draw to be below 2^attempts for the attempt being counted, as `Math.floor(Math.random() * 2^attempt)` always is.
- Redis's own limits are not modelled: key and value sizes, memory eviction, persistence and replication.

## Findings

| source | as written | input that shows it | evidently intended | confidence | as-written member | corrected member |
|---|---|---|---|---|---|---|
| index.js:175 | `for (var i = 0, len = jsondocs.length; i < len--; i += 2)` over the 2n replies decrements `len` on every test, so the loop stops after ceil(2n/3) of the n key slots | `getBatch(['a','b','c'])` with all three documents stored answers two documents; the third is dropped | examine every slot (`i < len`) and answer every stored document | high (not executed) | Engine.GetBatch, ReadProperties.GetBatchDropsTail | Engine.GetBatchIntended, ReadProperties.GetBatchIntendedComplete |
