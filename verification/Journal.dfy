/** The edit journal of runtime/store/edits.py: an append-only table and two queries over it. */
module Journals {
  import opened FileId
  import opened Wrappers

  type Path = string

  datatype Tool = Mkdir | DeletePath | RenamePath | UndoEdit | EditTool(name: string)

  /** `before` and `after` are the contents of the file, None where there is no file. The digests stored
      beside them are functions of the contents and, SHA-256 being taken as injective, say no more. */
  datatype Row = Row(id: nat, session: string, batch: string, path: Path, tool: Tool,
                     before: Option<Data>, after: Option<Data>)

  /** Row ids count up from 1. */
  ghost predicate Numbered(rows: seq<Row>) {
    forall k | 0 <= k < |rows| :: rows[k].id == k + 1
  }

  /** `WHERE session_id = ? ORDER BY id DESC LIMIT ?` */
  function Recent(rows: seq<Row>, session: string, limit: nat): seq<Row> {
    if rows == [] || limit == 0 then []
    else
      var last, front := rows[|rows| - 1], rows[..|rows| - 1];
      if last.session == session then [last] + Recent(front, session, limit - 1) else Recent(front, session, limit)
  }

  function CountSession(rows: seq<Row>, session: string): nat {
    if rows == [] then 0
    else CountSession(rows[..|rows| - 1], session) + (if rows[|rows| - 1].session == session then 1 else 0)
  }

  /** `WHERE session_id = ? AND batch_id = ? ORDER BY id ASC` */
  function InBatch(rows: seq<Row>, session: string, batch: string): seq<Row> {
    if rows == [] then []
    else
      var last := rows[|rows| - 1];
      InBatch(rows[..|rows| - 1], session, batch) + (if last.session == session && last.batch == batch then [last] else [])
  }

  /** The rows that share the batch of the newest row of the session; a row without a batch stands alone. */
  function LastBatch(rows: seq<Row>, session: string): seq<Row> {
    var head := Recent(rows, session, 1);
    if head == [] then []
    else if head[0].batch != "" then InBatch(rows, session, head[0].batch)
    else head
  }

  class Journal {
    var rows: seq<Row>

    ghost predicate Valid()
      reads this
    {
      Numbered(rows)
    }

    constructor ()
      ensures Valid() && rows == []
    {
      rows := [];
    }

    method Record(session: string, batch: string, path: Path, tool: Tool, before: Option<Data>, after: Option<Data>)
      returns (id: nat)
      requires Valid()
      modifies this
      ensures Valid() && id == |old(rows)| + 1
      ensures rows == old(rows) + [Row(id, session, batch, path, tool, before, after)]
    {
      id := |rows| + 1;
      rows := rows + [Row(id, session, batch, path, tool, before, after)];
    }

    method RecentRows(session: string, limit: nat) returns (found: seq<Row>)
      ensures found == Recent(rows, session, limit)
      ensures forall r | r in found :: r in rows && r.session == session
    {
      found := [];
      var k := |rows|;
      ghost var goal := Recent(rows, session, limit);
      assert rows[..k] == rows && found + goal == goal;
      while k > 0 && |found| < limit
        invariant k <= |rows| && |found| <= limit
        invariant found + Recent(rows[..k], session, limit - |found|) == goal
        invariant forall r | r in found :: r in rows && r.session == session
      {
        k := k - 1;
        assert rows[..k + 1][..k] == rows[..k];
        if rows[k].session == session {
          RecentStep(rows, k, session, limit - |found|, found);
          found := found + [rows[k]];
        }
      }
      assert found + [] == found;
    }

    method LastBatchRows(session: string) returns (batch: seq<Row>)
      ensures batch == LastBatch(rows, session)
    {
      var head := RecentRows(session, 1);
      if head == [] { return []; }
      if head[0].batch == "" { return head; }
      batch := [];
      for k := 0 to |rows|
        invariant batch == InBatch(rows[..k], session, head[0].batch)
      {
        assert rows[..k + 1][..k] == rows[..k];
        if rows[k].session == session && rows[k].batch == head[0].batch { batch := batch + [rows[k]]; }
      }
      assert rows[..|rows|] == rows;
    }
  }

  lemma {:induction false} RecentStep(rows: seq<Row>, k: nat, session: string, limit: nat, found: seq<Row>)
    requires k < |rows| && rows[k].session == session && limit > 0
    ensures found + Recent(rows[..k + 1], session, limit) == found + [rows[k]] + Recent(rows[..k], session, limit - 1)
  {
    assert rows[..k + 1][..k] == rows[..k];
  }

  /****** The two queries ******/

  /** A row of the session is among the recent ones exactly when fewer than `limit` rows of the session
      are newer. */
  lemma {:induction false} RecentIff(rows: seq<Row>, session: string, limit: nat, k: nat)
    requires Numbered(rows) && k < |rows|
    ensures rows[k] in Recent(rows, session, limit) <==>
            rows[k].session == session && CountSession(rows[k + 1..], session) < limit
  {
    var last, front := rows[|rows| - 1], rows[..|rows| - 1];
    if limit > 0 {
      var left := if last.session == session then limit - 1 else limit;
      if k < |front| {
        RecentIff(front, session, left, k);
        assert rows[k + 1..][..|rows| - k - 2] == front[k + 1..];
        assert rows[k] != last;
      } else {
        assert rows[k + 1..] == [];
        RecentIsPart(front, session, left);
      }
    }
  }

  lemma {:induction false} RecentIsPart(rows: seq<Row>, session: string, limit: nat)
    ensures forall r | r in Recent(rows, session, limit) :: r in rows && r.session == session
  {
    if rows != [] && limit > 0 {
      var last, front := rows[|rows| - 1], rows[..|rows| - 1];
      RecentIsPart(front, session, if last.session == session then limit - 1 else limit);
    }
  }

  ghost predicate AllOf(rows: seq<Row>, session: string, batch: string) {
    forall k | 0 <= k < |rows| :: rows[k].session == session && rows[k].batch == batch
  }

  ghost predicate Unused(rows: seq<Row>, batch: string) {
    forall k | 0 <= k < |rows| :: rows[k].batch != batch
  }

  ghost predicate Newest(rows: seq<Row>, session: string, n: nat) {
    n < |rows| && rows[n].session == session && forall k | n < k < |rows| :: rows[k].session != session
  }

  lemma {:induction false} RecentOne(rows: seq<Row>, session: string, n: nat)
    requires Newest(rows, session, n)
    ensures Recent(rows, session, 1) == [rows[n]]
  {
    var last, front := rows[|rows| - 1], rows[..|rows| - 1];
    if last.session == session {
      assert n == |rows| - 1 && Recent(front, session, 0) == [];
    } else {
      RecentOne(front, session, n);
    }
  }

  ghost predicate InIdOrder(rows: seq<Row>) {
    forall i, j | 0 <= i < j < |rows| :: rows[i].id < rows[j].id
  }

  lemma {:induction false} InBatchMeans(rows: seq<Row>, session: string, batch: string)
    requires Numbered(rows)
    ensures InIdOrder(InBatch(rows, session, batch))
    ensures forall r :: r in InBatch(rows, session, batch) <==> r in rows && r.session == session && r.batch == batch
  {
    if rows != [] {
      var front, last := rows[..|rows| - 1], rows[|rows| - 1];
      assert rows == front + [last];
      InBatchMeans(front, session, batch);
      forall r | r in front ensures r.id < last.id { var k :| 0 <= k < |front| && front[k] == r; }
    }
  }

  /** The last batch of a session holds the rows with the batch of its newest row, oldest first; a newest
      row without a batch stands alone. */
  lemma {:induction false} LastBatchIff(rows: seq<Row>, session: string, n: nat)
    requires Numbered(rows) && Newest(rows, session, n)
    ensures InIdOrder(LastBatch(rows, session))
    ensures forall r :: r in LastBatch(rows, session) <==>
              r in rows && r.session == session && if rows[n].batch != "" then r.batch == rows[n].batch else r == rows[n]
  {
    RecentOne(rows, session, n);
    InBatchMeans(rows, session, rows[n].batch);
  }

  /** There is no last batch exactly when the session has no row. */
  lemma {:induction false} NoLastBatchIff(rows: seq<Row>, session: string)
    requires Numbered(rows)
    ensures LastBatch(rows, session) == [] <==> forall r | r in rows :: r.session != session
  {
    RecentIsPart(rows, session, 1);
    if exists r | r in rows :: r.session == session {
      var n := NewestOf(rows, session);
      LastBatchIff(rows, session, n);
      assert rows[n] in LastBatch(rows, session);
    }
  }

  lemma {:induction false} NewestOf(rows: seq<Row>, session: string) returns (n: nat)
    requires exists r | r in rows :: r.session == session
    ensures Newest(rows, session, n)
  {
    n := |rows| - 1;
    if rows[n].session != session { n := NewestOf(rows[..n], session); }
  }

  /** After a new batch has been recorded it is the last batch. */
  lemma {:induction false} NewBatchIsLast(rows: seq<Row>, batchRows: seq<Row>, session: string, batch: string)
    requires batchRows != [] && AllOf(batchRows, session, batch) && Unused(rows, batch) && batch != ""
    ensures LastBatch(rows + batchRows, session) == batchRows
  {
    var all := rows + batchRows;
    assert all[|all| - 1] == batchRows[|batchRows| - 1];
    assert Recent(all, session, 1)[0] == all[|all| - 1];
    InNewBatch(rows, batchRows, session, batch);
  }

  lemma {:induction false} InNewBatch(rows: seq<Row>, batchRows: seq<Row>, session: string, batch: string)
    requires AllOf(batchRows, session, batch) && Unused(rows, batch)
    ensures InBatch(rows + batchRows, session, batch) == batchRows
  {
    var all := rows + batchRows;
    if batchRows != [] {
      var front, last := batchRows[..|batchRows| - 1], batchRows[|batchRows| - 1];
      assert all[..|all| - 1] == rows + front && all[|all| - 1] == last;
      InNewBatch(rows, front, session, batch);
    } else if rows != [] {
      assert all == rows;
      InNewBatch(rows[..|rows| - 1], [], session, batch);
      assert rows[..|rows| - 1] + [] == rows[..|rows| - 1];
    }
  }

  lemma {:induction false} CountAll(rows: seq<Row>, session: string)
    requires forall k | 0 <= k < |rows| :: rows[k].session == session
    ensures CountSession(rows, session) == |rows|
  {
    if rows != [] { CountAll(rows[..|rows| - 1], session); }
  }
}
