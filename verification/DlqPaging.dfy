/** Paging through the dead-letter queue while it changes. */
module DlqPaging {
  import opened Basics
  import opened Streams
  import opened Envelopes

  datatype Row = Row(id: Id, fields: Fields)

  ghost predicate Ascending(rows: seq<Row>) {
    forall i, j :: 0 <= i < j < |rows| ==> Before(rows[i].id, rows[j].id)
  }

  ghost predicate Has(rows: seq<Row>, id: Id) {
    exists i :: 0 <= i < |rows| && rows[i].id == id
  }

  /** XRANGE from an inclusive lower bound. */
  function From(rows: seq<Row>, cursor: Id): seq<Row> {
    if rows == [] || !Before(rows[0].id, cursor) then rows else From(rows[1..], cursor)
  }

  function Page(rows: seq<Row>, cursor: Id, limit: int): seq<Row> {
    if limit <= 0 then []
    else if |From(rows, cursor)| <= limit then From(rows, cursor)
    else From(rows, cursor)[..limit]
  }

  /** The cursor after a full page is the last id with its sequence part increased. */
  function NextCursor(page: seq<Row>, limit: int): Option<Id> {
    if limit <= 0 || |page| < limit then None
    else var last := page[|page| - 1].id; Some(Id(last.ms, last.sn + 1))
  }

  lemma {:induction false} FromIs(rows: seq<Row>, cursor: Id) returns (k: nat)
    requires Ascending(rows)
    ensures k <= |rows| && From(rows, cursor) == rows[k..]
    ensures forall i :: 0 <= i < |rows| ==> (Before(rows[i].id, cursor) <==> i < k)
    decreases rows
  {
    if rows == [] || !Before(rows[0].id, cursor) {
      k := 0;
    } else {
      var j := FromIs(rows[1..], cursor);
      k := j + 1;
      assert forall i :: 1 <= i < |rows| ==> rows[i] == rows[1..][i - 1];
    }
  }

  /** A page is a stretch of the rows: all rows from `k` on, or `limit` of them. */
  lemma PageIsStretch(rows: seq<Row>, cursor: Id, limit: int) returns (k: nat)
    requires Ascending(rows) && limit >= 1
    ensures var page := Page(rows, cursor, limit);
      && k + |page| <= |rows| && page == rows[k..k + |page|] && Ascending(page)
      && (|page| < limit ==> k + |page| == |rows|) && |page| <= limit
    ensures forall i :: 0 <= i < |rows| ==> (Before(rows[i].id, cursor) <==> i < k)
  {
    k := FromIs(rows, cursor);
    var page := Page(rows, cursor, limit);
    assert page == rows[k..k + |page|];
    assert forall i :: 0 <= i < |page| ==> page[i] == rows[k + i];
  }

  lemma PageHolds(rows: seq<Row>, cursor: Id, limit: int, id: Id)
    requires Ascending(rows) && limit >= 1 && Has(rows, id) && !Before(id, cursor)
    requires var next := NextCursor(Page(rows, cursor, limit), limit); next.Some? ==> Before(id, next.value)
    ensures Has(Page(rows, cursor, limit), id)
  {
    var k := PageIsStretch(rows, cursor, limit);
    var page := Page(rows, cursor, limit);
    var i :| 0 <= i < |rows| && rows[i].id == id;
    assert k <= i && (|page| > 0 ==> page[|page| - 1] == rows[k + |page| - 1]);
    assert forall j :: 0 <= j < i ==> Before(rows[j].id, rows[i].id);
    assert page[i - k].id == id;
  }

  /** A page holds exactly the present ids from its cursor up to the next one. */
  lemma PageIs(rows: seq<Row>, cursor: Id, limit: int, id: Id)
    requires Ascending(rows) && limit >= 1
    ensures var page := Page(rows, cursor, limit); var next := NextCursor(page, limit);
      && Ascending(page)
      && (Has(page, id) <==> Has(rows, id) && !Before(id, cursor) && (next.Some? ==> Before(id, next.value)))
      && (next.Some? ==> Before(cursor, next.value))
  {
    var k := PageIsStretch(rows, cursor, limit);
    var page := Page(rows, cursor, limit);
    var next := NextCursor(page, limit);
    if Has(page, id) {
      var i :| 0 <= i < |page| && page[i].id == id;
      assert page[i] == rows[k + i];
      assert i == |page| - 1 || Before(page[i].id, page[|page| - 1].id);
    }
    if Has(rows, id) && !Before(id, cursor) && (next.Some? ==> Before(id, next.value)) {
      PageHolds(rows, cursor, limit, id);
    }
    assert |page| > 0 ==> page[0] == rows[k] && page[|page| - 1] == rows[k + |page| - 1];
  }

  /** What an operator reads who follows `next_cursor`; each request sees the DLQ as it then is.
      `done` tells that the last page read had no next cursor. */
  datatype Walk = Walk(ids: seq<Id>, done: bool)

  function Ids(page: seq<Row>): seq<Id> {
    seq(|page|, i requires 0 <= i < |page| => page[i].id)
  }

  function Follow(snapshots: seq<seq<Row>>, cursor: Id, limit: int): Walk {
    if snapshots == [] then Walk([], false)
    else
      var page := Page(snapshots[0], cursor, limit);
      match NextCursor(page, limit)
      case None => Walk(Ids(page), true)
      case Some(next) =>
        var rest := Follow(snapshots[1..], next, limit);
        Walk(Ids(page) + rest.ids, rest.done)
  }

  ghost predicate AllAscending(snapshots: seq<seq<Row>>) {
    forall i :: 0 <= i < |snapshots| ==> Ascending(snapshots[i])
  }

  lemma {:induction false} FollowStays(snapshots: seq<seq<Row>>, cursor: Id, limit: int)
    requires AllAscending(snapshots) && limit >= 1
    ensures forall id :: id in Follow(snapshots, cursor, limit).ids ==> !Before(id, cursor)
    decreases snapshots
  {
    if snapshots != [] {
      var page := Page(snapshots[0], cursor, limit);
      forall id | id in Ids(page) ensures !Before(id, cursor) {
        assert Has(page, id);
        PageIs(snapshots[0], cursor, limit, id);
      }
      if NextCursor(page, limit).Some? {
        PageIs(snapshots[0], cursor, limit, cursor);
        FollowStays(snapshots[1..], NextCursor(page, limit).value, limit);
      }
    }
  }

  ghost predicate Increasing(ids: seq<Id>) {
    forall i, j :: 0 <= i < j < |ids| ==> Before(ids[i], ids[j])
  }

  /** Whatever is appended or deleted between pages, ids come in increasing order: no duplicates. */
  lemma {:induction false} PagesNeverRepeat(snapshots: seq<seq<Row>>, cursor: Id, limit: int)
    requires AllAscending(snapshots) && limit >= 1
    ensures Increasing(Follow(snapshots, cursor, limit).ids)
    decreases snapshots
  {
    if snapshots != [] {
      var page := Page(snapshots[0], cursor, limit);
      PageIs(snapshots[0], cursor, limit, cursor);
      if NextCursor(page, limit).Some? {
        var next := NextCursor(page, limit).value;
        PagesNeverRepeat(snapshots[1..], next, limit);
        FollowStays(snapshots[1..], next, limit);
        forall id | id in Ids(page) ensures Before(id, next) {
          assert Has(page, id);
          PageIs(snapshots[0], cursor, limit, id);
        }
        var rest, n := Follow(snapshots[1..], next, limit).ids, |page|;
        var ids := Ids(page) + rest;
        forall i, j | 0 <= i < j < |ids| ensures Before(ids[i], ids[j]) {
          if j < n {
            assert ids[i] == page[i].id && ids[j] == page[j].id && Before(page[i].id, page[j].id);
          } else if i < n {
            assert ids[i] == Ids(page)[i] && ids[i] in Ids(page) && Before(ids[i], next);
            assert ids[j] == rest[j - n] && ids[j] in rest && !Before(ids[j], next);
          } else {
            assert ids[i] == rest[i - n] && ids[j] == rest[j - n] && Before(rest[i - n], rest[j - n]);
          }
        }
      }
    }
  }

  /** An entry that is present throughout is read, once the paging has come to its end. */
  lemma {:induction false} PagesNeverSkip(snapshots: seq<seq<Row>>, cursor: Id, limit: int, id: Id)
    requires AllAscending(snapshots) && limit >= 1
    requires Follow(snapshots, cursor, limit).done && !Before(id, cursor)
    requires forall i :: 0 <= i < |snapshots| ==> Has(snapshots[i], id)
    ensures id in Follow(snapshots, cursor, limit).ids
    decreases snapshots
  {
    var page := Page(snapshots[0], cursor, limit);
    PageIs(snapshots[0], cursor, limit, id);
    if Has(page, id) {
      var i :| 0 <= i < |page| && page[i].id == id;
      assert Ids(page)[i] == id;
    } else {
      PagesNeverSkip(snapshots[1..], NextCursor(page, limit).value, limit, id);
    }
  }

  /** On a DLQ that stays as it is, paging ends after |rows| / limit + 1 pages at most, having read
      every row from the cursor on, in order. */
  lemma {:induction false} PagesEnd(rows: seq<Row>, snapshots: seq<seq<Row>>, cursor: Id, limit: int)
    requires Ascending(rows) && limit >= 1
    requires forall i :: 0 <= i < |snapshots| ==> snapshots[i] == rows
    requires |From(rows, cursor)| < |snapshots| * limit
    ensures Follow(snapshots, cursor, limit) == Walk(Ids(From(rows, cursor)), true)
    decreases snapshots
  {
    var k := FromIs(rows, cursor);
    var all := From(rows, cursor);
    var page := Page(rows, cursor, limit);
    assert |snapshots| > 0 && snapshots[0] == rows;
    if |page| == limit {
      var next := NextCursor(page, limit).value;
      var m := FromIs(rows, next);
      assert page[limit - 1] == rows[k + limit - 1];
      assert Before(rows[k + limit - 1].id, next);
      assert m == k + limit by {
        if k + limit < |rows| {
          assert Before(rows[k + limit - 1].id, rows[k + limit].id);
        }
      }
      assert (|snapshots| - 1) * limit == |snapshots| * limit - limit;
      PagesEnd(rows, snapshots[1..], next, limit);
      assert Ids(all) == Ids(page) + Ids(From(rows, next));
    } else {
      assert page == all;
    }
  }
}
