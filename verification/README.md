# Purge resolution, target aggregates and lineage models

A Dafny model of three pieces of the CHT core repository:

- **The purge-resolution engine** of the API server (`api/src/services/purged-docs.js`). For each set of user roles there is a purge database. It holds one purge record per purged document. A record that is present and not deleted means "purged for these roles"; a deleted record means the document was restored. The engine answers two questions:
  - a snapshot: "which of these document ids are purged?" This answer is cached in the response cache.
  - an incremental query: "which purges happened since checkpoint X?"

  It also writes checkpoints, and it flushes the cache when a purge-log document is created in the sentinel database. The model is a sequential state machine over one immutable `State`. The state holds the registry of opened purge databases (keyed by role hash) and the purge databases themselves: change feed, `_local/` checkpoints and `update_seq`. It also holds the response cache, the set of keys whose TTL a hit refreshed, a log of every `changes` request issued, and the `inited` flag with a count of sentinel subscriptions. Every operation is a pure function that returns the next state and the value its promise resolves to.
- **The target-aggregates reducer** of the web app (`webapp/src/js/reducers/target-aggregates.js`). Its state is a record with three fields. Each of the three setter actions replaces exactly one field; any other action changes nothing.
- **The lineage model generator** of the web app (`webapp/src/js/services/lineage-model-generator.js`). It walks a document's parent chain to collect the ancestors' names. It also splits a fetched document list into the `contact`, `report`, `reportSubject` and `reportSubjects` models, and fails with code 404 when the fetched list is empty.

Some helpers are called but their code is not part of this model. These are the purging utility library (`getRoleHash`, `getPurgeDbName`, `getPurgedId`, `extractId`), `JSON.stringify`, the md5 digest and the name of the main database. They are the fields of a `PurgeUtils.Utils` record of arbitrary total functions. Properties that need something of them say so through an explicit ghost predicate used as a `requires`:

- `ExtractInvertsPurgedId`: `extractId(getPurgedId(x)) == x`.
- `RoleHashIgnoresOrder`: the role hash depends only on the set of roles.
- `DigestHasFixedLength`: every md5 hex digest is 32 characters long.
- `KeyPartsSingleLine`: an md5 hex digest, and a serialized role list in which no role holds U+2028 or U+2029, are non-empty and contain no line terminator. `JSON.stringify` escapes every character below U+0020 but copies U+2028 and U+2029 unescaped, so role lists holding them are excluded.

In the same way, the lineage library's `fetchContacts`, `fillContactsInDocs` and `fillParentsInDocs` are fields of `LineageModelGenerator.LineageLib`. The documents that `fetchLineageById` and `fetchLineageByIds` return are parameters.

The store's answer to a `changes` request is modelled in `PurgeStore.Answer`. It returns the feed rows whose id was requested and whose position is after `since`, in feed order, cut to `limit`. A `limit` of 0 acts as 1, as the CouchDB `_changes` documentation states. `last_seq` is the last returned row's position when the limit cut the feed short, and the database's `update_seq` otherwise.

Two behaviours of the code are worth knowing:

- The cache key embeds `JSON.stringify(roles)`, which depends on the order of the roles. So role lists that hold the same roles in a different order share the purge database (`PurgedDocsProperties.GetPurgeDbMemoised`) but not the cache entry.
- On blank input, `getPurgedIdsSince` resolves to a bare `[]`, not to a `{purgedDocIds, lastSeq}` record. The model's `SinceResult.NoIds` stands for this.

## Model

| member | source | states |
|---|---|---|
| ChangeFeed.PurgedIdsOf | api/src/services/purged-docs.js:39-44 | at most one id per row; every id comes from a non-deleted row through `extractId`, and every non-deleted row contributes its id |
| ChangeFeed.GetPurgedIdsFromChanges | api/src/services/purged-docs.js:33-45 | a missing response, or one without `results`, gives `[]` without failing; otherwise an id is in the output exactly when some non-deleted row extracts to it |
| ChangeFeed.PurgedIdsOfAppend | api/src/services/purged-docs.js:39-44 | interpreting concatenated feeds concatenates the outputs, so output order is feed order |
| ChangeFeed.PurgedIdsOfSingle | api/src/services/purged-docs.js:40-42 | one row contributes `extractId(id)` when not deleted and nothing when deleted |
| ChangeFeed.PurgedIdsOfEmptyIffAllDeleted | api/src/services/purged-docs.js:39-44 | the output is empty exactly when every row is deleted |
| ChangeFeed.PurgedIdsOfKeepsAllIffNoneDeleted | api/src/services/purged-docs.js:39-44 | the output is as long as the feed exactly when no row is deleted |
| PurgeStore.LocalIdInjective | api/src/services/purged-docs.js:102-107 | distinct checkpoint ids are stored under distinct `_local/` document ids |
| PurgeStore.Select | api/src/services/purged-docs.js:83-91 | a row is selected exactly when its id is among `doc_ids` and its position is after `since` |
| PurgeStore.Answer | api/src/services/purged-docs.js:83-91 | the response always has `results`; the rows returned are the first of the matching rows, as many as the limit allows (a limit of 0 acting as 1), and all of them without a limit; `last_seq` is `update_seq` when nothing was cut; in a well-formed database every returned row is at or before `last_seq` and every matching row left out comes after it |
| PurgeStore.SelectIncreasing | api/src/services/purged-docs.js:83-91 | the matching rows of a feed with increasing positions are themselves increasing |
| PurgeStore.CutSeparates | api/src/services/purged-docs.js:83-91 | cutting increasing rows after n of them leaves the kept rows at or before the last kept position and the rest after it |
| CacheKeys.MatchesIffSplits | api/src/services/purged-docs.js:26 | the key test accepts a key exactly when it reads `purged-` + a non-empty single-line part + `-` + a non-empty single-line part |
| CacheKeys.GetCacheKey | api/src/services/purged-docs.js:17-24 | every key starts with `purged-`, carries the serialized roles right after the prefix and ends with the md5 digest of the serialized ids; when the serialized roles and the digest are single-line and non-empty, and no role holds U+2028 or U+2029, the key matches the flush pattern |
| CacheKeys.CacheKeyNamesOneQuery | api/src/services/purged-docs.js:17-24 | with digests of fixed length, equal keys come from equal serialized roles and equal digests of the serialized ids, so a cache entry answers for one roles list and one id list |
| CacheKeys.ClearCache | api/src/services/purged-docs.js:26-31 | a key survives exactly when it was present and does not match the pattern; surviving entries keep their values |
| CacheKeys.ClearCacheRemovesSnapshots | api/src/services/purged-docs.js:17-31 | after a flush, no key that `getCacheKey` builds from roles without U+2028 or U+2029 is left, whatever ids built it |
| CacheKeys.RawSeparatorKeySurvivesFlush | api/src/services/purged-docs.js:17-31 | a key whose serialized roles hold a line terminator does not match the pattern, so a flush keeps it with its value |
| CacheKeys.ClearCacheIdempotent | api/src/services/purged-docs.js:28-31 | flushing twice leaves the same cache as flushing once |
| PurgedDocs.PurgeRecordIds | api/src/services/purged-docs.js:60 | the purge-record ids are `getPurgedId` of each document id, same length and order |
| PurgedDocs.GetPurgeDb | api/src/services/purged-docs.js:8-15 | the handle registered for the roles' hash, registered on first use; handles already registered are never replaced; only the registry changes; in a coherent registry the handle is the database named after the hash |
| PurgedDocs.AnswerIds | api/src/services/purged-docs.js:63-66 | the ids read from a response are yielded by present purge records matching the request; when the limit does not cut the feed, every such id is read |
| PurgedDocs.GetPurgedIds | api/src/services/purged-docs.js:47-71 | blank roles or ids give `[]` and change nothing. A hit returns the cached list, refreshes only that key's TTL and issues no request. A miss issues exactly one `changes` request with `doc_ids` = the purge-record ids, `batch_size` = n+1 and `seq_interval` = n. It registers at most the roles' own handle, named `getPurgeDbName(env db, hash)` when new, keeps a coherent registry coherent, answers the ids interpreted from that request's response (exactly the ids the feed shows present), caches them under the key and leaves every other key alone |
| PurgedDocs.GetCheckPointer | api/src/services/purged-docs.js:102-107 | the checkpoint has id `_local/<id>`; its `last_seq` is the stored one, or 0 when none is stored |
| PurgedDocs.GetPurgedIdsSince | api/src/services/purged-docs.js:73-100 | blank input gives a bare `[]` and changes nothing. Otherwise one request is issued with `since` = the checkpoint's `last_seq` (0 when absent) and `limit` = the option or 100. It registers at most the roles' own handle, named `getPurgeDbName(env db, hash)` when new, keeps a coherent registry coherent, and returns the ids interpreted from that response with the response's `last_seq`; it never writes a checkpoint and never touches the cache |
| PurgedDocs.WriteCheckPointer | api/src/services/purged-docs.js:109-121 | only the checkpoint changes: its `last_seq` becomes the database's `update_seq` for 'now', the literal position otherwise, and 0 when no position is given. At most the roles' handle, named `getPurgeDbName(env db, hash)` when new, and its database are added; a coherent registry stays coherent; feed, `update_seq`, other registry entries, other databases, cache and request log are unchanged |
| PurgedDocs.OnSentinelChange | api/src/services/purged-docs.js:126-130 | a purge-log creation (id prefix `purgelog:`, first rev `1-`; the rev is read only for purge-log ids) removes exactly the pattern-matching cache keys; any other change leaves the state unchanged; nothing but the cache changes |
| PurgedDocs.Listen | api/src/services/purged-docs.js:123-125 | one more subscription on the sentinel feed, nothing else changes |
| PurgedDocs.Init | api/src/services/purged-docs.js:137-144 | after `init` the engine is inited; a second `init` changes nothing; the first one subscribes once |
| PurgedDocsProperties.SnapshotRepeatIsHit | api/src/services/purged-docs.js:52-70 | asking the same snapshot twice in a row answers equal lists, and the second ask issues no request |
| PurgedDocsProperties.SnapshotMissIsPurgedSubset | api/src/services/purged-docs.js:59-70 | on a miss, the answer is exactly the requested ids whose purge record is present and not deleted in the roles' purge database |
| PurgedDocsProperties.SnapshotYieldsIffPurged | api/src/services/purged-docs.js:59-66 | the snapshot request yields an id exactly when it was asked for and its purge record is present and not deleted |
| PurgedDocsProperties.GetPurgeDbRegistered | api/src/services/purged-docs.js:9-14 | in a coherent registry the roles resolve to `getPurgeDbName(env db, getRoleHash(roles))` |
| PurgedDocsProperties.GetPurgeDbMemoised | api/src/services/purged-docs.js:9-14 | role lists holding the same roles resolve to the same database, and resolving again changes nothing |
| PurgedDocsProperties.FlushForcesMiss | api/src/services/purged-docs.js:17-31 | after a purge-log creation event, the next snapshot ask for roles without U+2028 or U+2029 misses and issues a request |
| PurgedDocsProperties.SeparatorSnapshotSurvivesFlush | api/src/services/purged-docs.js:17-31 | when the serialized roles hold a line terminator, a cached snapshot survives a purge-log creation event and is answered again without a request |
| PurgedDocsProperties.OtherChangeKeepsHit | api/src/services/purged-docs.js:126-130 | after any other sentinel change, a cached snapshot still hits with the same value and no request |
| PurgedDocsProperties.CheckpointWriteRead | api/src/services/purged-docs.js:102-121 | a written checkpoint reads back with the written `last_seq` (0 when no position is given); checkpoints under other ids are untouched |
| PurgedDocsProperties.CheckpointRoundTrip | api/src/services/purged-docs.js:73-121 | after `writeCheckPointer`, `getPurgedIdsSince` with that id (and the same roles in any order) queries `since` = the written position, or `update_seq` for 'now' |
| PurgedDocsProperties.InitListensOnce | api/src/services/purged-docs.js:137-144 | however many times `init` is called, the sentinel feed is subscribed to at most once |
| PurgedDocsProperties.Apply | api/src/services/purged-docs.js:8-15 | no single call to the engine breaks the coherence of the registry: each handle stays the database named after its hash |
| PurgedDocsProperties.RunKeepsRegistryCoherent | api/src/services/purged-docs.js:8-15 | any sequence of calls from a coherent state ends in a coherent state |
| PurgedDocsProperties.ReachableIsCoherent | api/src/services/purged-docs.js:8-15 | every state reached from the start, with nothing registered, is coherent, so the registry assumption of the snapshot and resolution lemmas holds of every reachable state |
| TargetAggregates.Reduce | webapp/src/js/reducers/target-aggregates.js:8-23 | each setter sets its own field from the payload and keeps the other two; any other action returns the state unchanged; a missing state reads as the initial state |
| TargetAggregates.UndefinedStateIsInitial | webapp/src/js/reducers/target-aggregates.js:2-11 | an undefined state behaves as `{selected: null, targetAggregates: [], error: false}` |
| TargetAggregates.ReduceIdempotent | webapp/src/js/reducers/target-aggregates.js:13-22 | applying any action twice equals applying it once |
| TargetAggregates.SettersCommute | webapp/src/js/reducers/target-aggregates.js:14-19 | setters of different fields can be applied in either order |
| TargetAggregates.LastSetterWins | webapp/src/js/reducers/target-aggregates.js:14-19 | of two setters of the same field, the later one alone decides the field |
| LineageModelGenerator.Ancestors | webapp/src/js/services/lineage-model-generator.js:44-48 | the parent chain has one element per level of depth; it is empty exactly when there is no parent; it starts at the parent and ends at an ancestor without a parent |
| LineageModelGenerator.AncestorsLinked | webapp/src/js/services/lineage-model-generator.js:44-48 | each ancestor's parent is the next element of the chain, so the chain is nearest-first |
| LineageModelGenerator.LineageNames | webapp/src/js/services/lineage-model-generator.js:42-50 | the names of the ancestors, nearest first, one per level of depth; `[]` when there is no parent |
| LineageModelGenerator.Get | webapp/src/js/services/lineage-model-generator.js:22-32 | fails with code 404 exactly when the fetched list is empty; otherwise returns the list unchanged |
| LineageModelGenerator.Hydrate | webapp/src/js/services/lineage-model-generator.js:34-40 | hydration keeps the list's length and fills each document with the contacts fetched once for the whole list |
| LineageModelGenerator.Contact | webapp/src/js/services/lineage-model-generator.js:59-80 | 404 exactly on an empty fetch. Otherwise `_id` is the id asked for and `lineage` is the hydrated list without its head. Without merge, doc followed by lineage rebuilds the hydrated list; with merge, doc is the head with its parents filled from the lineage |
| LineageModelGenerator.Report | webapp/src/js/services/lineage-model-generator.js:86-108 | 404 exactly on an empty fetch. Otherwise doc, contact and lineage rebuild the hydrated list in that order, and contact is missing exactly when the list has one document. With merge, only the report's own `contact` field gets its parents filled |
| LineageModelGenerator.ReportSubject | webapp/src/js/services/lineage-model-generator.js:109-117 | 404 exactly on an empty fetch; otherwise `_id` is the id asked for and doc followed by lineage rebuilds the fetched list |
| LineageModelGenerator.ReportSubjects | webapp/src/js/services/lineage-model-generator.js:118-129 | one summary per fetched document, in order, with that document's `_id`, the document itself and its ancestors' names nearest-first |

## Left out

- The live subscription on the sentinel database and its restart-on-error loop (`listen`'s error handler). Only the change filter (`OnSentinelChange`) and the subscription count kept by `Listen`/`Init` are modelled.
- Promise concurrency. This covers the `Promise.all` in `writeCheckPointer`, its un-awaited `put`, and the race between concurrent cache misses. Operations are modelled as sequential steps.
- Failures of the database or cache calls, and their propagation as rejected promises. The store model always answers. Because of this, the source's "no partial caching on failure" is not stated.
- The internals of md5, `JSON.stringify` and the purging utility library. They are uninterpreted functions constrained only by the three stated assumptions.
- TTL expiry timing and the cache's default TTL. A refresh is recorded as the key joining a set. Logging is also left out.
- `changes` option semantics beyond `doc_ids`, `since` and `limit`. `batch_size` and `seq_interval` are recorded in the request log but do not affect the answer. The `last_seq` rule in `PurgeStore.Answer` is a simplification of the database's behaviour.
- Sequence positions are natural numbers. The database's opaque string sequences, and `seq` arguments that are strings other than 'now', are not modelled.
- A `checkPointerId` of `undefined` in `writeCheckPointer` (which would address `_local/undefined`) is not modelled: the id is always a string.
- The response cache is shared with other services that store values of other types. Here it holds only purge snapshots. A cached value counts as a hit whenever its key is present, which matches the source because the cached values are arrays and always truthy.
- OnSentinelChange: a purge-log change with an empty `changes` list is excluded by a `requires`. The source reads `changes[0]` only after the id test passes and would throw there, and the database always reports at least one revision.
- ClearCacheRemovesSnapshots, FlushForcesMiss: promise the flush only for role lists in which no role holds U+2028 or U+2029. For other role lists the key escapes the flush pattern and the stale snapshot outlives the purge (`CacheKeys.RawSeparatorKeySurvivesFlush`, `PurgedDocsProperties.SeparatorSnapshotSurvivesFlush`).
- The Angular dependency-injection wiring and the lineage library calls. `fetchLineageById` and `fetchLineageByIds` become the fetched list given as a parameter.
- Hydrate: `fillContactsInDocs` is modelled as filling each document from the fetched contacts independently, because its code is not part of this model.
- Report: with merge, the in-place effect of `fillParentsInDocs` on `doc.contact` is taken to be its return value. A report without a `contact` field is left unchanged. `doc.contact` and the second fetched document are taken to be distinct objects, so filling one does not change the other.
