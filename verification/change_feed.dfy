/**
 * The change-feed interpreter: turns the rows of a purge database's change
 * feed into the ids of the documents currently purged. A row whose purge
 * record is present and not deleted means "purged"; a deleted row means the
 * document was purged once and has since been restored.
 */
module ChangeFeed {
  import opened Wrappers
  import opened PurgeUtils

  /** One row of a change feed: the purge-record id, its sequence position (`seq`) and its deleted flag (a missing flag reads as false). */
  datatype Change = Change(position: nat, id: string, deleted: bool)

  /** A change-feed response; `results` is None when the response has no `results` field. */
  datatype Feed = Feed(results: Option<seq<Change>>, lastSeq: nat)

  /** The rows of a response, none when the response or its `results` field is missing. */
  function RowsOf(result: Option<Feed>): seq<Change> {
    match result
    case Some(Feed(Some(rows), _)) => rows
    case _ => []
  }

  /**
   * The document ids of the purged rows, in feed order: each id is the
   * extracted id of a non-deleted row, and every non-deleted row
   * contributes its extracted id.
   */
  function PurgedIdsOf(u: Utils, rows: seq<Change>): (ids: seq<string>)
    ensures |ids| <= |rows|
    ensures forall i :: 0 <= i < |ids| ==>
              exists j :: 0 <= j < |rows| && !rows[j].deleted && ids[i] == u.extractId(rows[j].id)
    ensures forall j :: 0 <= j < |rows| && !rows[j].deleted ==> u.extractId(rows[j].id) in ids
    decreases |rows|
  {
    if rows == [] then []
    else
      var init := rows[..|rows| - 1];
      var last := rows[|rows| - 1];
      assert forall j :: 0 <= j < |init| ==> init[j] == rows[j];
      PurgedIdsOf(u, init) + (if last.deleted then [] else [u.extractId(last.id)])
  }

  /**
   * getPurgedIdsFromChanges: never fails; a missing response or one
   * without `results` gives no ids, otherwise the ids of the purged rows.
   */
  function GetPurgedIdsFromChanges(u: Utils, result: Option<Feed>): (ids: seq<string>)
    ensures result.None? || result.value.results.None? ==> ids == []
    ensures |ids| <= |RowsOf(result)|
    ensures forall id :: id in ids <==>
              exists c :: c in RowsOf(result) && !c.deleted && u.extractId(c.id) == id
  {
    var rows := RowsOf(result);
    var ids := PurgedIdsOf(u, rows);
    assert forall id :: id in ids ==>
             exists c :: c in rows && !c.deleted && u.extractId(c.id) == id by {
      forall id | id in ids
        ensures exists c :: c in rows && !c.deleted && u.extractId(c.id) == id
      {
        var i :| 0 <= i < |ids| && ids[i] == id;
        var j :| 0 <= j < |rows| && !rows[j].deleted && ids[i] == u.extractId(rows[j].id);
        assert rows[j] in rows;
      }
    }
    ids
  }

  /** Interpreting a concatenation of feeds concatenates the interpretations: feed order is kept. */
  lemma {:induction false} PurgedIdsOfAppend(u: Utils, a: seq<Change>, b: seq<Change>)
    ensures PurgedIdsOf(u, a + b) == PurgedIdsOf(u, a) + PurgedIdsOf(u, b)
    decreases |b|
  {
    if b == [] {
      assert a + b == a;
    } else {
      var b' := b[..|b| - 1];
      assert (a + b)[..|a + b| - 1] == a + b';
      assert (a + b)[|a + b| - 1] == b[|b| - 1];
      PurgedIdsOfAppend(u, a, b');
    }
  }

  /** A single row contributes its extracted id exactly when it is not deleted. */
  lemma PurgedIdsOfSingle(u: Utils, c: Change)
    ensures !c.deleted ==> PurgedIdsOf(u, [c]) == [u.extractId(c.id)]
    ensures c.deleted ==> PurgedIdsOf(u, [c]) == []
  {
    assert [c][..0] == [];
  }

  /** No id comes out exactly when every row is deleted. */
  lemma {:induction false} PurgedIdsOfEmptyIffAllDeleted(u: Utils, rows: seq<Change>)
    ensures PurgedIdsOf(u, rows) == [] <==> forall j :: 0 <= j < |rows| ==> rows[j].deleted
  {
    var ids := PurgedIdsOf(u, rows);
    if exists j :: 0 <= j < |rows| && !rows[j].deleted {
      var j :| 0 <= j < |rows| && !rows[j].deleted;
      assert u.extractId(rows[j].id) in ids;
    }
    if ids != [] {
      assert exists j :: 0 <= j < |rows| && !rows[j].deleted && ids[0] == u.extractId(rows[j].id);
    }
  }

  /** Every row is kept exactly when none is deleted. */
  lemma {:induction false} PurgedIdsOfKeepsAllIffNoneDeleted(u: Utils, rows: seq<Change>)
    ensures |PurgedIdsOf(u, rows)| == |rows| <==> forall j :: 0 <= j < |rows| ==> !rows[j].deleted
    decreases |rows|
  {
    if rows != [] {
      var init := rows[..|rows| - 1];
      var last := rows[|rows| - 1];
      PurgedIdsOfKeepsAllIffNoneDeleted(u, init);
      var before := PurgedIdsOf(u, init);
      assert |PurgedIdsOf(u, rows)| == |before| + (if last.deleted then 0 else 1);
      assert |before| <= |init|;
      if forall j :: 0 <= j < |rows| ==> !rows[j].deleted {
        forall j | 0 <= j < |init|
          ensures !init[j].deleted
        {
          assert init[j] == rows[j];
        }
        assert !rows[|rows| - 1].deleted;
      }
      if (forall j :: 0 <= j < |init| ==> !init[j].deleted) && !last.deleted {
        forall j | 0 <= j < |rows|
          ensures !rows[j].deleted
        {
          if j < |init| {
            assert rows[j] == init[j];
          }
        }
      }
    }
  }
}
