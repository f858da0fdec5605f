/**
 * The purge-resolution engine as a sequential state machine. One `State`
 * holds everything the engine reads or writes: the registry of opened
 * purge databases (keyed by role hash), the purge databases themselves,
 * the response cache with the set of keys whose TTL was refreshed, the log
 * of `changes` requests issued, and the listener flags. Each operation is a
 * pure function from a state to a `Step`: the next state and the value the
 * operation's promise resolves to.
 */
module PurgedDocs {
  import opened Wrappers
  import opened PurgeUtils
  import opened ChangeFeed
  import opened PurgeStore
  import opened CacheKeys

  /** A `changes` request issued against the purge database named `db`. */
  datatype Request = Request(db: string, query: ChangesQuery)

  datatype State = State(
    registry: map<string, string>,     // role hash -> name of its purge database
    dbs: map<string, PurgeDb>,         // purge databases on the server, by name
    cache: map<string, seq<string>>,   // response cache: key -> purged ids
    refreshed: set<string>,            // keys whose TTL was refreshed by a hit
    requests: seq<Request>,            // every `changes` request, in issue order
    inited: bool,                      // `init` has run
    listens: nat                       // subscriptions opened on the sentinel feed
  )

  /** The state after an operation and the value it resolves to. */
  datatype Step<T> = Step(state: State, value: T)

  /** The purge database of that name; one never written reads as empty. */
  function DbOf(s: State, name: string): PurgeDb {
    if name in s.dbs then s.dbs[name] else EmptyDb
  }

  /** Every registered handle is the database named after its hash. */
  ghost predicate RegistryCoherent(u: Utils, s: State) {
    forall h :: h in s.registry ==> s.registry[h] == u.purgeDbName(u.environmentDb, h)
  }

  /** A missing or empty list, which both resolvers treat as "nothing to ask". */
  predicate Blank(xs: Option<seq<string>>) {
    xs.None? || |xs.value| == 0
  }

  /** The purge-record ids of the given document ids, in the same order. */
  function PurgeRecordIds(u: Utils, docIds: seq<string>): (ids: seq<string>)
    ensures |ids| == |docIds|
    ensures forall i :: 0 <= i < |ids| ==> ids[i] == u.purgedId(docIds[i])
  {
    seq(|docIds|, i requires 0 <= i < |docIds| => u.purgedId(docIds[i]))
  }

  /**
   * getPurgeDb: the handle registered for the roles' hash, registering the
   * database named after the hash on first use. Registered handles are
   * never replaced and nothing but the registry changes.
   */
  function GetPurgeDb(u: Utils, s: State, roles: seq<string>): (r: Step<string>)
    ensures u.roleHash(roles) in r.state.registry
    ensures r.value == r.state.registry[u.roleHash(roles)]
    ensures r.state.registry.Keys == s.registry.Keys + {u.roleHash(roles)}
    ensures forall h :: h in s.registry ==> r.state.registry[h] == s.registry[h]
    ensures r.state == s.(registry := r.state.registry)
    ensures RegistryCoherent(u, s) ==>
              RegistryCoherent(u, r.state) && r.value == u.purgeDbName(u.environmentDb, u.roleHash(roles))
  {
    var hash := u.roleHash(roles);
    if hash in s.registry then Step(s, s.registry[hash])
    else
      var name := u.purgeDbName(u.environmentDb, hash);
      Step(s.(registry := s.registry[hash := name]), name)
  }

  /** The `changes` request of a snapshot query: exactly the given ids, no `since`, no `limit`. */
  function SnapshotQuery(u: Utils, docIds: seq<string>): ChangesQuery {
    var ids := PurgeRecordIds(u, docIds);
    ChangesQuery(ids, |ids| + 1, |ids|, None, None)
  }

  /** Some row of the database's feed answering `q` is a present purge record whose extracted id is `id`. */
  ghost predicate Yields(u: Utils, db: PurgeDb, q: ChangesQuery, id: string) {
    exists c :: c in db.feed && c.id in q.docIds && c.position > q.since.GetOr(0) && !c.deleted && u.extractId(c.id) == id
  }

  /** The request's `limit`, if any, does not cut the selected rows short. */
  predicate Uncut(db: PurgeDb, q: ChangesQuery) {
    q.limit.None? || |Select(db.feed, q.docIds, q.since.GetOr(0))| <= EffectiveLimit(q.limit.value)
  }

  /** The ids read from a database's answer: only yielded ids, and all of them when the limit does not cut. */
  lemma AnswerIds(u: Utils, db: PurgeDb, q: ChangesQuery)
    ensures forall id :: id in GetPurgedIdsFromChanges(u, Some(Answer(db, q))) ==> Yields(u, db, q, id)
    ensures Uncut(db, q) ==>
              forall id :: Yields(u, db, q, id) ==> id in GetPurgedIdsFromChanges(u, Some(Answer(db, q)))
  {
    var f := Answer(db, q);
    var ids := GetPurgedIdsFromChanges(u, Some(f));
    forall id | id in ids
      ensures Yields(u, db, q, id)
    {
      var c :| c in RowsOf(Some(f)) && !c.deleted && u.extractId(c.id) == id;
    }
    if Uncut(db, q) {
      var since := q.since.GetOr(0);
      assert f.results.value == Select(db.feed, q.docIds, since);
      forall id | Yields(u, db, q, id)
        ensures id in ids
      {
        var c :| c in db.feed && c.id in q.docIds && c.position > since && !c.deleted && u.extractId(c.id) == id;
        assert c in RowsOf(Some(f));
      }
    }
  }

  /**
   * getPurgedIds: the ids among `docIds` that are purged for `roles`.
   * Missing or empty input answers [] and touches nothing; a cache hit
   * answers the cached list, refreshes that key's TTL and issues no
   * request; a miss issues one `changes` request for exactly the given ids
   * against the roles' purge database, caches the interpreted rows under
   * the key and answers them.
   */
  function GetPurgedIds(u: Utils, s: State, roles: Option<seq<string>>, docIds: Option<seq<string>>)
    : (r: Step<seq<string>>)
    ensures RegistryCoherent(u, s) ==> RegistryCoherent(u, r.state)
    ensures Blank(docIds) || Blank(roles) ==> r == Step(s, [])
    ensures !Blank(docIds) && !Blank(roles) ==>
              var key := GetCacheKey(u, roles.value, docIds.value);
              key in s.cache ==>
                && r.value == s.cache[key]
                && r.state == s.(refreshed := s.refreshed + {key})
    ensures !Blank(docIds) && !Blank(roles) ==>
              var key := GetCacheKey(u, roles.value, docIds.value);
              key !in s.cache ==>
                && r.state.registry.Keys == s.registry.Keys + {u.roleHash(roles.value)}
                && (forall h :: h in s.registry ==> r.state.registry[h] == s.registry[h])
                && |r.state.requests| == |s.requests| + 1
                && r.state.requests[..|s.requests|] == s.requests
                && var req := r.state.requests[|s.requests|];
                && req.db == r.state.registry[u.roleHash(roles.value)]
                && (u.roleHash(roles.value) !in s.registry || RegistryCoherent(u, s) ==>
                      req.db == u.purgeDbName(u.environmentDb, u.roleHash(roles.value)))
                && req.query.docIds == PurgeRecordIds(u, docIds.value)
                && req.query.batchSize == |docIds.value| + 1
                && req.query.seqInterval == |docIds.value|
                && req.query.since.None? && req.query.limit.None?
                && r.state.cache == s.cache[key := r.value]
                && r.state.refreshed == s.refreshed
                && r.state.dbs == s.dbs
                && r.state.inited == s.inited && r.state.listens == s.listens
                && r.value == GetPurgedIdsFromChanges(u, Some(Answer(DbOf(s, req.db), req.query)))
                && (forall id :: id in r.value <==> Yields(u, DbOf(s, req.db), req.query, id))
  {
    if Blank(docIds) || Blank(roles) then Step(s, [])
    else
      var key := GetCacheKey(u, roles.value, docIds.value);
      if key in s.cache then
        Step(s.(refreshed := s.refreshed + {key}), s.cache[key])
      else
        var handle := GetPurgeDb(u, s, roles.value);
        var q := SnapshotQuery(u, docIds.value);
        var ids := GetPurgedIdsFromChanges(u, Some(Answer(DbOf(handle.state, handle.value), q)));
        var t := handle.state;
        AnswerIds(u, DbOf(handle.state, handle.value), q);
        Step(t.(requests := t.requests + [Request(handle.value, q)], cache := t.cache[key := ids]), ids)
  }

  /** The options of getPurgedIdsSince; a missing option takes its default. */
  datatype SinceOptions = SinceOptions(checkPointerId: Option<string>, limit: Option<nat>)

  const DefaultCheckPointerId := ""
  const DefaultLimit := 100

  /** What getPurgedIdsSince resolves to: a bare [] on blank input, otherwise the purged ids and the feed's `last_seq`. */
  datatype SinceResult = NoIds | Batch(purgedDocIds: seq<string>, lastSeq: nat)

  /** getCheckPointer: the stored checkpoint, or a zero checkpoint (not stored) when there is none. */
  function GetCheckPointer(db: PurgeDb, checkPointerId: string): (cp: Checkpoint)
    ensures cp.id == LocalId(checkPointerId)
    ensures cp.lastSeq == (if LocalId(checkPointerId) in db.local then db.local[LocalId(checkPointerId)] else 0)
  {
    var id := LocalId(checkPointerId);
    if id in db.local then Checkpoint(id, db.local[id]) else Checkpoint(id, 0)
  }

  /**
   * getPurgedIdsSince: the purged ids among `docIds` whose purge records
   * changed after the checkpoint's `last_seq` (0 when there is no
   * checkpoint), at most `limit` (default 100) rows. Missing or empty input
   * answers a bare [] and touches nothing. The checkpoint is read, never
   * written, and the cache is not used.
   */
  function GetPurgedIdsSince(u: Utils, s: State, roles: Option<seq<string>>, docIds: Option<seq<string>>,
                             options: SinceOptions): (r: Step<SinceResult>)
    ensures RegistryCoherent(u, s) ==> RegistryCoherent(u, r.state)
    ensures Blank(docIds) || Blank(roles) ==> r == Step(s, NoIds)
    ensures !Blank(docIds) && !Blank(roles) ==>
              && r.state.registry.Keys == s.registry.Keys + {u.roleHash(roles.value)}
              && (forall h :: h in s.registry ==> r.state.registry[h] == s.registry[h])
              && |r.state.requests| == |s.requests| + 1
              && r.state.requests[..|s.requests|] == s.requests
              && var req := r.state.requests[|s.requests|];
              && var db := DbOf(s, req.db);
              && var checkPointerId := options.checkPointerId.GetOr(DefaultCheckPointerId);
              && req.db == r.state.registry[u.roleHash(roles.value)]
              && (u.roleHash(roles.value) !in s.registry || RegistryCoherent(u, s) ==>
                    req.db == u.purgeDbName(u.environmentDb, u.roleHash(roles.value)))
              && req.query.docIds == PurgeRecordIds(u, docIds.value)
              && req.query.batchSize == |docIds.value| + 1
              && req.query.seqInterval == |docIds.value|
              && req.query.since == Some(if LocalId(checkPointerId) in db.local then db.local[LocalId(checkPointerId)] else 0)
              && req.query.limit == Some(options.limit.GetOr(DefaultLimit))
              && r.state.dbs == s.dbs
              && r.state.cache == s.cache && r.state.refreshed == s.refreshed
              && r.state.inited == s.inited && r.state.listens == s.listens
              && r.value.Batch?
              && r.value.purgedDocIds == GetPurgedIdsFromChanges(u, Some(Answer(db, req.query)))
              && r.value.lastSeq == Answer(db, req.query).lastSeq
              && (forall id :: id in r.value.purgedDocIds ==> Yields(u, db, req.query, id))
              && (Uncut(db, req.query) ==> forall id :: Yields(u, db, req.query, id) ==> id in r.value.purgedDocIds)
  {
    if Blank(docIds) || Blank(roles) then Step(s, NoIds)
    else
      var handle := GetPurgeDb(u, s, roles.value);
      var db := DbOf(handle.state, handle.value);
      var ids := PurgeRecordIds(u, docIds.value);
      var checkPointer := GetCheckPointer(db, options.checkPointerId.GetOr(DefaultCheckPointerId));
      var q := ChangesQuery(ids, |ids| + 1, |ids|, Some(checkPointer.lastSeq), Some(options.limit.GetOr(DefaultLimit)));
      var result := Answer(db, q);
      var t := handle.state;
      AnswerIds(u, db, q);
      Step(t.(requests := t.requests + [Request(handle.value, q)]),
           Batch(GetPurgedIdsFromChanges(u, Some(result)), result.lastSeq))
  }

  /** The `seq` argument of writeCheckPointer: the sentinel 'now' or a literal position. */
  datatype SeqArg = Now | At(position: nat)

  const DefaultSeq := At(0)

  /**
   * writeCheckPointer: store the checkpoint with `last_seq` set to the
   * database's `update_seq` for 'now', otherwise to the literal position
   * (0 when no position is given). Only the roles' handle may be registered
   * and only that database's checkpoint is written; no request is issued
   * and the cache is untouched.
   */
  function WriteCheckPointer(u: Utils, s: State, roles: seq<string>, checkPointerId: string, at: Option<SeqArg>)
    : (s': State)
    ensures s'.registry.Keys == s.registry.Keys + {u.roleHash(roles)}
    ensures u.roleHash(roles) !in s.registry || RegistryCoherent(u, s) ==>
              s'.registry[u.roleHash(roles)] == u.purgeDbName(u.environmentDb, u.roleHash(roles))
    ensures RegistryCoherent(u, s) ==> RegistryCoherent(u, s')
    ensures forall h :: h in s.registry ==> s'.registry[h] == s.registry[h]
    ensures var name := s'.registry[u.roleHash(roles)];
            var before := DbOf(s, name);
            var position := at.GetOr(DefaultSeq);
            && s'.dbs.Keys == s.dbs.Keys + {name}
            && s'.dbs[name].local == before.local[LocalId(checkPointerId) :=
                                                   if position.Now? then before.updateSeq else position.position]
            && s'.dbs[name].feed == before.feed
            && s'.dbs[name].updateSeq == before.updateSeq
            && (forall other :: other in s.dbs && other != name ==> other in s'.dbs && s'.dbs[other] == s.dbs[other])
    ensures s'.cache == s.cache && s'.refreshed == s.refreshed && s'.requests == s.requests
    ensures s'.inited == s.inited && s'.listens == s.listens
  {
    var handle := GetPurgeDb(u, s, roles);
    var db := DbOf(handle.state, handle.value);
    var checkPointer := GetCheckPointer(db, checkPointerId);
    var info := db.updateSeq;
    var position := at.GetOr(DefaultSeq);
    var written := checkPointer.(lastSeq := if position == Now then info else position.position);
    var t := handle.state;
    t.(dbs := t.dbs[handle.value := db.(local := db.local[written.id := written.lastSeq])])
  }

  /** A change row of the sentinel database: the document id and the revisions of its `changes` list. */
  datatype SentinelChange = SentinelChange(id: string, revs: seq<string>)

  predicate StartsWith(s: string, prefix: string) {
    |prefix| <= |s| && s[..|prefix|] == prefix
  }

  const PurgeLogPrefix := "purgelog:"

  /**
   * The listener reads the first revision only of purge-log documents (the
   * test stops at the id otherwise), so only those need one.
   */
  predicate Readable(change: SentinelChange) {
    StartsWith(change.id, PurgeLogPrefix) ==> |change.revs| > 0
  }

  /** The listener's filter: a purge-log document seen at its first revision. */
  predicate IsPurgeLogCreation(change: SentinelChange)
    requires Readable(change)
  {
    StartsWith(change.id, PurgeLogPrefix) && StartsWith(change.revs[0], "1-")
  }

  /**
   * The listener's reaction to one sentinel change: a purge-log creation
   * flushes every snapshot key of the cache; any other change leaves the
   * state as it was. Only the cache changes.
   */
  function OnSentinelChange(s: State, change: SentinelChange): (s': State)
    requires Readable(change)
    ensures forall k :: k in s'.cache <==> k in s.cache && !(IsPurgeLogCreation(change) && MatchesPurgeKeyPattern(k))
    ensures forall k :: k in s'.cache ==> s'.cache[k] == s.cache[k]
    ensures s' == s.(cache := s'.cache)
  {
    if IsPurgeLogCreation(change) then s.(cache := ClearCache(s.cache)) else s
  }

  /** listen: open one subscription on the sentinel change feed. */
  function Listen(s: State): (s': State)
    ensures s'.listens == s.listens + 1
    ensures s' == s.(listens := s'.listens)
  {
    s.(listens := s.listens + 1)
  }

  /** init: start listening the first time only. */
  function Init(s: State): (s': State)
    ensures s'.inited
    ensures s.inited ==> s' == s
    ensures !s.inited ==> s'.listens == s.listens + 1
    ensures s' == s.(inited := true, listens := s'.listens)
  {
    if s.inited then s else Listen(s).(inited := true)
  }
}
