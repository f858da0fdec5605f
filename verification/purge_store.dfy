/**
 * The per-role purge database as the engine sees it: a change feed of
 * purge records, a map of `_local/<id>` checkpoint documents and the
 * database's `update_seq`; and the `changes` request the engine issues
 * against it. Only the `doc_ids`, `since` and `limit` options of a
 * `changes` request affect the rows returned; `batch_size` and
 * `seq_interval` are recorded but are tuning knobs.
 */
module PurgeStore {
  import opened Wrappers
  import opened ChangeFeed

  /** A checkpoint document: its `_id` and its `last_seq`. */
  datatype Checkpoint = Checkpoint(id: string, lastSeq: nat)

  /**
   * A purge database. `feed` holds one row per purge record, at the
   * position of its latest change, in increasing position order; `local`
   * maps the id of each stored checkpoint document to its `last_seq`.
   */
  datatype PurgeDb = PurgeDb(feed: seq<Change>, local: map<string, nat>, updateSeq: nat)

  /**
   * The shape of a purge database's feed: positions start at 1, never pass
   * the database's `update_seq` and increase along the feed, and each
   * purge record appears once.
   */
  ghost predicate WellFormedDb(db: PurgeDb) {
    && (forall c :: c in db.feed ==> 0 < c.position <= db.updateSeq)
    && Increasing(db.feed)
    && (forall i, j :: 0 <= i < j < |db.feed| ==> db.feed[i].id != db.feed[j].id)
  }

  /** Positions strictly increase along the rows. */
  ghost predicate Increasing(rows: seq<Change>) {
    forall i, j :: 0 <= i < j < |rows| ==> rows[i].position < rows[j].position
  }

  /** What opening a database that was never written holds. */
  const EmptyDb := PurgeDb([], map[], 0)

  /** The options of a `changes` request; a missing `since` or `limit` was not passed. */
  datatype ChangesQuery = ChangesQuery(
    docIds: seq<string>,
    batchSize: nat,
    seqInterval: nat,
    since: Option<nat>,
    limit: Option<nat>
  )

  /** The id under which a checkpoint document is stored. */
  function LocalId(checkPointerId: string): string {
    "_local/" + checkPointerId
  }

  lemma LocalIdInjective(a: string, b: string)
    ensures LocalId(a) == LocalId(b) <==> a == b
  {
    if LocalId(a) == LocalId(b) {
      assert a == LocalId(a)[7..] == LocalId(b)[7..] == b;
    }
  }

  /** The rows of `feed` whose id is requested and whose position is after `since`, in feed order. */
  function Select(feed: seq<Change>, docIds: seq<string>, since: nat): (rows: seq<Change>)
    ensures |rows| <= |feed|
    ensures forall c :: c in rows <==> c in feed && c.id in docIds && c.position > since
    decreases |feed|
  {
    if feed == [] then []
    else
      var init := feed[..|feed| - 1];
      var last := feed[|feed| - 1];
      assert feed == init + [last];
      Select(init, docIds, since) + (if last.id in docIds && last.position > since then [last] else [])
  }

  /** Selecting from an increasing feed keeps the rows increasing. */
  lemma {:induction false} SelectIncreasing(feed: seq<Change>, docIds: seq<string>, since: nat)
    requires Increasing(feed)
    ensures Increasing(Select(feed, docIds, since))
    decreases |feed|
  {
    if feed != [] {
      var init := feed[..|feed| - 1];
      var last := feed[|feed| - 1];
      assert Increasing(init) by {
        forall i, j | 0 <= i < j < |init|
          ensures init[i].position < init[j].position
        {
          assert init[i] == feed[i] && init[j] == feed[j];
        }
      }
      SelectIncreasing(init, docIds, since);
      var front := Select(init, docIds, since);
      forall c | c in front
        ensures c.position < last.position
      {
        var i :| 0 <= i < |init| && init[i] == c;
        assert feed[i] == c;
      }
      var rows := front + (if last.id in docIds && last.position > since then [last] else []);
      forall i, j | 0 <= i < j < |rows|
        ensures rows[i].position < rows[j].position
      {
        if j < |front| {
          assert rows[i] == front[i] && rows[j] == front[j];
        } else {
          assert rows[i] == front[i] && front[i] in front;
        }
      }
    }
  }

  /**
   * The `limit` the database applies: a limit of 0 acts as a limit of 1,
   * as the CouchDB `_changes` documentation states.
   */
  function EffectiveLimit(limit: nat): (n: nat)
    ensures n >= 1 && (limit > 0 ==> n == limit)
  {
    if limit == 0 then 1 else limit
  }

  /**
   * The response of a purge database to a `changes` request: the selected
   * rows, cut to the effective `limit`; `last_seq` is the position of the
   * last row returned when the limit cut the feed short, and the database's
   * `update_seq` when the whole feed was read. In a well-formed database
   * `last_seq` separates the rows returned from the selected rows left for
   * a later request.
   */
  function Answer(db: PurgeDb, q: ChangesQuery): (f: Feed)
    ensures f.results.Some?
    ensures forall c :: c in f.results.value ==>
              c in db.feed && c.id in q.docIds && c.position > q.since.GetOr(0)
    ensures q.limit.Some? ==> |f.results.value| <= EffectiveLimit(q.limit.value)
    ensures q.limit.None? ==>
              forall c :: c in db.feed && c.id in q.docIds && c.position > q.since.GetOr(0) ==>
                c in f.results.value
    ensures var rows := Select(db.feed, q.docIds, q.since.GetOr(0));
            && f.results.value <= rows
            && |f.results.value| == (if q.limit.Some? && EffectiveLimit(q.limit.value) < |rows|
                                     then EffectiveLimit(q.limit.value) else |rows|)
            && (|f.results.value| == |rows| ==> f.lastSeq == db.updateSeq)
            && (WellFormedDb(db) ==>
                  && (forall c :: c in f.results.value ==> c.position <= f.lastSeq)
                  && (forall c :: c in rows && c !in f.results.value ==> f.lastSeq < c.position))
  {
    var since := q.since.GetOr(0);
    var rows := Select(db.feed, q.docIds, since);
    if q.limit.Some? && EffectiveLimit(q.limit.value) < |rows| then
      var n := EffectiveLimit(q.limit.value);
      var kept := rows[..n];
      assert forall c :: c in kept ==> c in rows;
      WellFormedSelectIncreasing(db, q.docIds, since);
      CutSeparates(rows, n);
      Feed(Some(kept), kept[n - 1].position)
    else
      Feed(Some(rows), db.updateSeq)
  }

  /** The selected rows of a well-formed database are increasing. */
  lemma WellFormedSelectIncreasing(db: PurgeDb, docIds: seq<string>, since: nat)
    ensures WellFormedDb(db) ==> Increasing(Select(db.feed, docIds, since))
  {
    if WellFormedDb(db) {
      SelectIncreasing(db.feed, docIds, since);
    }
  }

  /** Cutting increasing rows after `n` of them splits them at the last kept position. */
  lemma CutSeparates(rows: seq<Change>, n: nat)
    requires 0 < n < |rows|
    ensures Increasing(rows) ==>
              && (forall c :: c in rows[..n] ==> c.position <= rows[n - 1].position)
              && (forall c :: c in rows && c !in rows[..n] ==> rows[n - 1].position < c.position)
  {
    if Increasing(rows) {
      forall c | c in rows[..n]
        ensures c.position <= rows[n - 1].position
      {
        var i :| 0 <= i < n && rows[..n][i] == c;
        assert rows[i] == c;
      }
      forall c | c in rows && c !in rows[..n]
        ensures rows[n - 1].position < c.position
      {
        var j :| 0 <= j < |rows| && rows[j] == c;
      }
    }
  }
}
