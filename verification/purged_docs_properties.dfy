/**
 * Properties of the purge engine that relate several operations: the
 * snapshot cache round trip, the presence reading of a fresh snapshot,
 * invalidation, the checkpoint round trip, role-order independence of the
 * purge database and the once-only `init`.
 */
module PurgedDocsProperties {
  import opened Wrappers
  import opened PurgeUtils
  import opened ChangeFeed
  import opened PurgeStore
  import opened CacheKeys
  import opened PurgedDocs

  /** The purge database a role list resolves to in a coherent registry. */
  function PurgeDbFor(u: Utils, roles: seq<string>): string {
    u.purgeDbName(u.environmentDb, u.roleHash(roles))
  }

  /** The purge record of `id` is present, and not deleted, in the roles' purge database. */
  ghost predicate PurgedFor(u: Utils, s: State, roles: seq<string>, id: string) {
    exists c :: c in DbOf(s, PurgeDbFor(u, roles)).feed && c.id == u.purgedId(id) && !c.deleted
  }

  /** Every database on the server is well formed. */
  ghost predicate WellFormedState(s: State) {
    forall name :: name in s.dbs ==> WellFormedDb(s.dbs[name])
  }

  /** Asking the same snapshot twice in a row answers the same list, and the second ask issues no request. */
  lemma SnapshotRepeatIsHit(u: Utils, s: State, roles: Option<seq<string>>, docIds: Option<seq<string>>)
    ensures var first := GetPurgedIds(u, s, roles, docIds);
            var second := GetPurgedIds(u, first.state, roles, docIds);
            && second.value == first.value
            && second.state.requests == first.state.requests
            && second.state.cache == first.state.cache
  {
    var first := GetPurgedIds(u, s, roles, docIds);
    if !Blank(docIds) && !Blank(roles) {
      var key := GetCacheKey(u, roles.value, docIds.value);
      assert key in first.state.cache && first.state.cache[key] == first.value;
    }
  }

  /**
   * A snapshot computed on a miss is exactly the requested ids whose purge
   * record is present and not deleted in the roles' purge database.
   */
  lemma SnapshotMissIsPurgedSubset(u: Utils, s: State, roles: seq<string>, docIds: seq<string>)
    requires ExtractInvertsPurgedId(u)
    requires RegistryCoherent(u, s)
    requires WellFormedState(s)
    requires |roles| > 0 && |docIds| > 0
    requires GetCacheKey(u, roles, docIds) !in s.cache
    ensures forall id :: id in GetPurgedIds(u, s, Some(roles), Some(docIds)).value <==>
                           id in docIds && PurgedFor(u, s, roles, id)
  {
    var r := GetPurgedIds(u, s, Some(roles), Some(docIds));
    GetPurgeDbRegistered(u, s, roles);
    var req := r.state.requests[|s.requests|];
    var db := DbOf(s, req.db);
    assert req.db == PurgeDbFor(u, roles);
    assert forall c :: c in db.feed ==> c.position > 0 by {
      assert WellFormedDb(db);
    }
    assert forall id :: id in r.value <==> Yields(u, db, req.query, id);
    forall id
      ensures id in r.value <==> id in docIds && PurgedFor(u, s, roles, id)
    {
      SnapshotYieldsIffPurged(u, db, docIds, id);
    }
  }

  /** The snapshot query yields an id exactly when it was asked for and its purge record is present. */
  lemma SnapshotYieldsIffPurged(u: Utils, db: PurgeDb, docIds: seq<string>, id: string)
    requires ExtractInvertsPurgedId(u)
    requires forall c :: c in db.feed ==> c.position > 0
    ensures Yields(u, db, SnapshotQuery(u, docIds), id) <==>
              id in docIds && exists c :: c in db.feed && c.id == u.purgedId(id) && !c.deleted
  {
    var q := SnapshotQuery(u, docIds);
    if Yields(u, db, q, id) {
      var c :| c in db.feed && c.id in q.docIds && c.position > 0 && !c.deleted && u.extractId(c.id) == id;
      var i :| 0 <= i < |docIds| && q.docIds[i] == c.id;
      assert u.extractId(u.purgedId(docIds[i])) == docIds[i];
    }
    if id in docIds && exists c :: c in db.feed && c.id == u.purgedId(id) && !c.deleted {
      var c :| c in db.feed && c.id == u.purgedId(id) && !c.deleted;
      var i :| 0 <= i < |docIds| && docIds[i] == id;
      assert q.docIds[i] == c.id;
      assert u.extractId(u.purgedId(id)) == id;
    }
  }

  /** In a coherent registry getPurgeDb answers the database named after the roles' hash. */
  lemma GetPurgeDbRegistered(u: Utils, s: State, roles: seq<string>)
    requires RegistryCoherent(u, s)
    ensures GetPurgeDb(u, s, roles).value == PurgeDbFor(u, roles)
  {
  }

  /**
   * Role lists holding the same roles resolve to the same purge database,
   * and resolving again changes nothing: the handle is memoised.
   */
  lemma GetPurgeDbMemoised(u: Utils, s: State, roles: seq<string>, sameRoles: seq<string>)
    requires RoleHashIgnoresOrder(u)
    requires SameRoles(roles, sameRoles)
    ensures var first := GetPurgeDb(u, s, roles);
            GetPurgeDb(u, first.state, sameRoles) == first
  {
    assert u.roleHash(roles) == u.roleHash(sameRoles);
  }

  /** After a purge-log creation event the next snapshot ask misses: it issues a request. */
  lemma FlushForcesMiss(u: Utils, s: State, change: SentinelChange, roles: seq<string>, docIds: seq<string>)
    requires KeyPartsSingleLine(u)
    requires NoRawSeparator(roles)
    requires Readable(change) && IsPurgeLogCreation(change)
    requires |roles| > 0 && |docIds| > 0
    ensures var r := GetPurgedIds(u, OnSentinelChange(s, change), Some(roles), Some(docIds));
            |r.state.requests| == |s.requests| + 1
  {
    ClearCacheRemovesSnapshots(u, s.cache, roles, docIds);
  }

  /**
   * When the roles' serialised form holds a line terminator, the snapshot
   * key escapes the flush pattern: after a purge-log creation event the
   * cached snapshot is still answered and no request is issued.
   */
  lemma SeparatorSnapshotSurvivesFlush(u: Utils, s: State, change: SentinelChange, roles: seq<string>,
                                       docIds: seq<string>, at: nat)
    requires Readable(change) && IsPurgeLogCreation(change)
    requires |roles| > 0 && |docIds| > 0
    requires at < |u.stringify(roles)| && IsLineTerminator(u.stringify(roles)[at])
    requires GetCacheKey(u, roles, docIds) in s.cache
    ensures var r := GetPurgedIds(u, OnSentinelChange(s, change), Some(roles), Some(docIds));
            r.value == s.cache[GetCacheKey(u, roles, docIds)] && r.state.requests == s.requests
  {
    RawSeparatorKeySurvivesFlush(u, s.cache, roles, docIds, at);
  }

  /** A change that is not a purge-log creation keeps every cached snapshot, so a cached ask still hits. */
  lemma OtherChangeKeepsHit(u: Utils, s: State, change: SentinelChange, roles: seq<string>, docIds: seq<string>)
    requires Readable(change) && !IsPurgeLogCreation(change)
    requires |roles| > 0 && |docIds| > 0
    requires GetCacheKey(u, roles, docIds) in s.cache
    ensures var r := GetPurgedIds(u, OnSentinelChange(s, change), Some(roles), Some(docIds));
            r.value == s.cache[GetCacheKey(u, roles, docIds)] && r.state.requests == s.requests
  {
  }

  /** The `last_seq` writeCheckPointer stores: the database's `update_seq` for 'now', else the literal position, 0 by default. */
  function Written(db: PurgeDb, at: Option<SeqArg>): nat {
    match at.GetOr(DefaultSeq)
    case Now => db.updateSeq
    case At(position) => position
  }

  /**
   * A checkpoint written and then read back, for the same id, gives the
   * written `last_seq`; checkpoints under other ids are untouched.
   */
  lemma CheckpointWriteRead(u: Utils, s: State, roles: seq<string>, checkPointerId: string, other: string,
                            at: Option<SeqArg>)
    ensures var s' := WriteCheckPointer(u, s, roles, checkPointerId, at);
            var name := s'.registry[u.roleHash(roles)];
            && GetCheckPointer(DbOf(s', name), checkPointerId).lastSeq == Written(DbOf(s, name), at)
            && (other != checkPointerId ==>
                  GetCheckPointer(DbOf(s', name), other) == GetCheckPointer(DbOf(s, name), other))
  {
    LocalIdInjective(checkPointerId, other);
  }

  /**
   * Checkpoint round trip: after writeCheckPointer, getPurgedIdsSince with
   * the same checkpoint id, and roles holding the same roles, queries the
   * feed `since` the written position.
   */
  lemma CheckpointRoundTrip(u: Utils, s: State, roles: seq<string>, sameRoles: seq<string>,
                            checkPointerId: string, at: Option<SeqArg>, docIds: seq<string>, limit: Option<nat>)
    requires RoleHashIgnoresOrder(u)
    requires SameRoles(roles, sameRoles)
    requires |sameRoles| > 0 && |docIds| > 0
    ensures var s1 := WriteCheckPointer(u, s, roles, checkPointerId, at);
            var r := GetPurgedIdsSince(u, s1, Some(sameRoles), Some(docIds), SinceOptions(Some(checkPointerId), limit));
            var req := r.state.requests[|s.requests|];
            && req.db == s1.registry[u.roleHash(roles)]
            && req.query.since == Some(Written(DbOf(s, req.db), at))
  {
    assert u.roleHash(roles) == u.roleHash(sameRoles);
    var s1 := WriteCheckPointer(u, s, roles, checkPointerId, at);
    var name := s1.registry[u.roleHash(roles)];
    assert LocalId(checkPointerId) in DbOf(s1, name).local;
  }

  /** `init` called `n` times. */
  function InitTimes(s: State, n: nat): State {
    if n == 0 then s else Init(InitTimes(s, n - 1))
  }

  /** However often `init` is called, the sentinel feed is subscribed to at most once. */
  lemma {:induction false} InitListensOnce(s: State, n: nat)
    requires n > 0
    ensures InitTimes(s, n).inited
    ensures InitTimes(s, n).listens == s.listens + (if s.inited then 0 else 1)
  {
    if n > 1 {
      InitListensOnce(s, n - 1);
    }
  }

  /** One call into the engine. */
  datatype Op =
    | Snapshot(roles: Option<seq<string>>, docIds: Option<seq<string>>)
    | Since(roles: Option<seq<string>>, docIds: Option<seq<string>>, options: SinceOptions)
    | Write(writeRoles: seq<string>, checkPointerId: string, at: Option<SeqArg>)
    | Sentinel(change: SentinelChange)
    | Start

  /** The state before any call: nothing registered, cached, requested or subscribed. */
  const Boot := State(map[], map[], map[], {}, [], false, 0)

  /** Every sentinel change in the calls carries the revision the listener reads. */
  predicate ReadableChanges(ops: seq<Op>) {
    forall i :: 0 <= i < |ops| && ops[i].Sentinel? ==> Readable(ops[i].change)
  }

  /** The state after one call; no call rewires the registry away from the hash-named databases. */
  function Apply(u: Utils, s: State, op: Op): (s': State)
    requires op.Sentinel? ==> Readable(op.change)
    ensures RegistryCoherent(u, s) ==> RegistryCoherent(u, s')
  {
    match op
    case Snapshot(roles, docIds) => GetPurgedIds(u, s, roles, docIds).state
    case Since(roles, docIds, options) => GetPurgedIdsSince(u, s, roles, docIds, options).state
    case Write(roles, id, at) => WriteCheckPointer(u, s, roles, id, at)
    case Sentinel(change) => OnSentinelChange(s, change)
    case Start => Init(s)
  }

  /** The state after the calls, made one after another from `s`. */
  function Run(u: Utils, s: State, ops: seq<Op>): State
    requires ReadableChanges(ops)
    decreases |ops|
  {
    if ops == [] then s
    else
      var rest := ops[1..];
      assert ReadableChanges(rest) by {
        forall i | 0 <= i < |rest| && rest[i].Sentinel?
          ensures Readable(rest[i].change)
        {
          assert rest[i] == ops[i + 1];
        }
      }
      var next := Apply(u, s, ops[0]);
      Run(u, next, rest)
  }

  /**
   * Every state the engine reaches from a coherent one is coherent: each
   * registered handle is the database named after its hash.
   */
  lemma {:induction false} RunKeepsRegistryCoherent(u: Utils, s: State, ops: seq<Op>)
    requires ReadableChanges(ops)
    requires RegistryCoherent(u, s)
    ensures RegistryCoherent(u, Run(u, s, ops))
    decreases |ops|
  {
    if ops != [] {
      var rest := ops[1..];
      assert ReadableChanges(rest) by {
        forall i | 0 <= i < |rest| && rest[i].Sentinel?
          ensures Readable(rest[i].change)
        {
          assert rest[i] == ops[i + 1];
        }
      }
      var next := Apply(u, s, ops[0]);
      RunKeepsRegistryCoherent(u, next, rest);
    }
  }

  /** So every state reachable from the start satisfies the registry assumption of the snapshot lemmas. */
  lemma ReachableIsCoherent(u: Utils, ops: seq<Op>)
    requires ReadableChanges(ops)
    ensures RegistryCoherent(u, Run(u, Boot, ops))
  {
    RunKeepsRegistryCoherent(u, Boot, ops);
  }
}
