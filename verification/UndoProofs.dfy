/** Undo: what it restores, what it refuses, and that undoing twice applies the edits again. */
module UndoProofs {
  import opened FileId
  import opened Journals
  import opened Sequences
  import opened WriteFunnel
  import opened Wrappers

  function NodeAt(disk: Disk, path: Path): Option<Node> {
    if path in disk then Some(disk[path]) else None
  }

  /** The node a file content stands for. */
  function AsNode(content: Option<Data>): Option<Node> {
    if content.None? then None else Some(File(content.value))
  }

  lemma {:induction false} SameDisk(a: Disk, b: Disk)
    requires forall p :: NodeAt(a, p) == NodeAt(b, p)
    ensures a == b
  {
    forall p ensures p in a <==> p in b { assert NodeAt(a, p) == NodeAt(b, p); }
    forall p | p in a ensures a[p] == b[p] { assert NodeAt(a, p) == NodeAt(b, p); }
  }

  ghost predicate DistinctPaths(rows: seq<Row>) {
    forall i, j | 0 <= i < j < |rows| :: rows[i].path != rows[j].path
  }

  /** No row is about a path below another row's path. */
  ghost predicate NoneBelow(rows: seq<Row>) {
    forall i, j | 0 <= i < |rows| && 0 <= j < |rows| :: !(rows[i].path + "/" <= rows[j].path)
  }

  ghost predicate Mentions(rows: seq<Row>, path: Path) {
    exists k | 0 <= k < |rows| :: rows[k].path == path
  }

  ghost predicate SameElsewhere(a: Disk, b: Disk, rows: seq<Row>) {
    forall p | !Mentions(rows, p) :: NodeAt(a, p) == NodeAt(b, p)
  }

  /** The rows say exactly how one disk became the other. */
  ghost predicate Explains(before: Disk, after: Disk, rows: seq<Row>) {
    && DistinctPaths(rows)
    && (forall k | 0 <= k < |rows| :: !rows[k].tool.Mkdir?
                                      && NodeAt(before, rows[k].path) == AsNode(rows[k].before)
                                      && NodeAt(after, rows[k].path) == AsNode(rows[k].after))
    && SameElsewhere(before, after, rows)
  }

  /****** One row ******/

  function UndoneNode(r: Row): Option<Node> {
    if r.before.None? then None else if Vanished(r) then Some(Dir) else Some(File(r.before.value))
  }

  /** The row can be undone here. */
  predicate Ready(disk: Disk, r: Row) {
    && !r.tool.Mkdir? && StillThere(disk, r)
    && (r.before.Some? && r.after.Some? ==> Content(disk, r.path).Some?)
    && (r.before.None? && r.path in disk && disk[r.path].Dir? ==> IsEmptyDir(disk, r.path))
  }

  lemma {:induction false} UndoneHere(disk: Disk, r: Row)
    requires Ready(disk, r)
    ensures UndoneDisk(disk, r).Some?
    ensures NodeAt(UndoneDisk(disk, r).value, r.path) == UndoneNode(r)
    ensures forall p | p != r.path :: NodeAt(UndoneDisk(disk, r).value, p) == NodeAt(disk, p)
  {
  }

  lemma {:induction false} StaysReady(disk: Disk, after: Disk, path: Path, r: Row)
    requires Ready(disk, r) && r.path != path && !(r.path + "/" <= path)
    requires forall p | p != path :: NodeAt(after, p) == NodeAt(disk, p)
    ensures Ready(after, r)
  {
    assert NodeAt(after, r.path) == NodeAt(disk, r.path);
    if r.path in disk && disk[r.path].Dir? && IsEmptyDir(disk, r.path) {
      forall q | q in after ensures !(r.path + "/" <= q) {
        if q != path { assert NodeAt(after, q) == NodeAt(disk, q); }
      }
    }
  }

  lemma {:induction false} StaysReadyFile(disk: Disk, after: Disk, path: Path, r: Row)
    requires Ready(disk, r) && r.path != path && !(r.path in disk && disk[r.path].Dir?)
    requires forall p | p != path :: NodeAt(after, p) == NodeAt(disk, p)
    ensures Ready(after, r)
  {
    assert NodeAt(after, r.path) == NodeAt(disk, r.path);
  }

  /****** A whole batch ******/

  ghost predicate AllReady(disk: Disk, rows: seq<Row>) {
    forall k | 0 <= k < |rows| :: Ready(disk, rows[k])
  }

  ghost predicate NoDirs(disk: Disk, rows: seq<Row>) {
    forall k | 0 <= k < |rows| :: !(rows[k].path in disk && disk[rows[k].path].Dir?)
  }

  /** The journal rows an undo writes. */
  function UndoRecords(c: Context, disk: Disk, rows: seq<Row>, from: nat, batch: string): (r: seq<Row>)
    ensures |r| == |rows|
    ensures forall k | 0 <= k < |r| ::
              r[k] == Row(from + k, c.session, batch, rows[k].path, UndoEdit, UndoBefore(disk, rows[k]), rows[k].before)
  {
    seq(|rows|, k requires 0 <= k < |rows| =>
      Row(from + k, c.session, batch, rows[k].path, UndoEdit, UndoBefore(disk, rows[k]), rows[k].before))
  }

  lemma {:induction false} RestIsReady(disk: Disk, rows: seq<Row>)
    requires rows != [] && DistinctPaths(rows) && AllReady(disk, rows) && (NoneBelow(rows) || NoDirs(disk, rows))
    ensures UndoneDisk(disk, rows[0]).Some?
    ensures var after := UndoneDisk(disk, rows[0]).value;
            && DistinctPaths(rows[1..]) && AllReady(after, rows[1..]) && (NoneBelow(rows[1..]) || NoDirs(after, rows[1..]))
            && forall k | 0 < k < |rows| :: NodeAt(after, rows[k].path) == NodeAt(disk, rows[k].path)
  {
    assert Ready(disk, rows[0]);
    UndoneHere(disk, rows[0]);
    var after := UndoneDisk(disk, rows[0]).value;
    forall k | 0 < k < |rows| ensures Ready(after, rows[k]) && NodeAt(after, rows[k].path) == NodeAt(disk, rows[k].path) {
      assert Ready(disk, rows[k]);
      if NoDirs(disk, rows) {
        StaysReadyFile(disk, after, rows[0].path, rows[k]);
      } else {
        StaysReady(disk, after, rows[0].path, rows[k]);
      }
    }
    if NoDirs(disk, rows) {
      forall k | 0 < k < |rows| ensures !(rows[k].path in after && after[rows[k].path].Dir?) {
        assert NodeAt(after, rows[k].path) == NodeAt(disk, rows[k].path);
      }
    }
  }

  /** What the recursion of the undo has to give, with its parts named. */
  ghost predicate UndoneTo(c: Context, s: State, rows: seq<Row>, batch: string, t: State, stopped: Option<Path>) {
    && stopped == None
    && (forall k | 0 <= k < |rows| :: NodeAt(t.disk, rows[k].path) == UndoneNode(rows[k]))
    && SameElsewhere(s.disk, t.disk, rows)
    && t.rows == s.rows + UndoRecords(c, s.disk, rows, |s.rows| + 1, batch)
  }

  function AfterRow(c: Context, s: State, r: Row, disk: Disk, batch: string): State {
    State(disk, Recorded(c, s.rows, batch, r.path, UndoEdit, UndoBefore(s.disk, r), r.before),
          Marked(c, s.digests, r.path, r.before))
  }

  lemma {:induction false} StepUndone(c: Context, s: State, rows: seq<Row>, batch: string, t: State)
    requires c.journaling && rows != [] && DistinctPaths(rows) && AllReady(s.disk, rows) && (NoneBelow(rows) || NoDirs(s.disk, rows))
    requires UndoneDisk(s.disk, rows[0]).Some?
    requires UndoneTo(c, AfterRow(c, s, rows[0], UndoneDisk(s.disk, rows[0]).value, batch), rows[1..], batch, t, None)
    ensures UndoneTo(c, s, rows, batch, t, None)
  {
    var disk := UndoneDisk(s.disk, rows[0]).value;
    assert Ready(s.disk, rows[0]);
    UndoneHere(s.disk, rows[0]);
    RestIsReady(s.disk, rows);
    RecordsGrow(c, s, rows, disk, batch);
    NodesSplit(s.disk, disk, t.disk, rows);
  }

  lemma {:induction false} RecordsGrow(c: Context, s: State, rows: seq<Row>, disk: Disk, batch: string)
    requires c.journaling && rows != []
    requires forall k | 0 < k < |rows| :: NodeAt(disk, rows[k].path) == NodeAt(s.disk, rows[k].path)
    ensures AfterRow(c, s, rows[0], disk, batch).rows + UndoRecords(c, disk, rows[1..], |s.rows| + 2, batch)
         == s.rows + UndoRecords(c, s.disk, rows, |s.rows| + 1, batch)
  {
    RecordsSplit(c, s.disk, disk, rows, |s.rows| + 1, batch);
    var all := UndoRecords(c, s.disk, rows, |s.rows| + 1, batch);
    var rest := UndoRecords(c, disk, rows[1..], |s.rows| + 2, batch);
    assert s.rows + ([all[0]] + rest) == s.rows + [all[0]] + rest;
  }

  lemma {:induction false} BatchUndone(c: Context, s: State, rows: seq<Row>, batch: string)
    requires c.journaling && DistinctPaths(rows) && AllReady(s.disk, rows) && (NoneBelow(rows) || NoDirs(s.disk, rows))
    ensures var (t, stopped) := UndoRows(c, s, rows, batch);
            UndoneTo(c, s, rows, batch, t, stopped)
    decreases |rows|
  {
    if rows == [] {
      assert s.rows + UndoRecords(c, s.disk, rows, |s.rows| + 1, batch) == s.rows;
    } else {
      RestIsReady(s.disk, rows);
      var next := AfterRow(c, s, rows[0], UndoneDisk(s.disk, rows[0]).value, batch);
      BatchUndone(c, next, rows[1..], batch);
      StepUndone(c, s, rows, batch, UndoRows(c, next, rows[1..], batch).0);
    }
  }

  lemma {:induction false} RecordsSplit(c: Context, disk: Disk, after: Disk, rows: seq<Row>, from: nat, batch: string)
    requires rows != [] && forall k | 0 < k < |rows| :: NodeAt(after, rows[k].path) == NodeAt(disk, rows[k].path)
    ensures var all := UndoRecords(c, disk, rows, from, batch);
            all == [all[0]] + UndoRecords(c, after, rows[1..], from + 1, batch)
  {
    var rest := UndoRecords(c, after, rows[1..], from + 1, batch);
    forall k | 0 < k < |rows| ensures UndoRecords(c, disk, rows, from, batch)[k] == rest[k - 1] {
      assert NodeAt(after, rows[k].path) == NodeAt(disk, rows[k].path);
      assert rows[1..][k - 1] == rows[k];
    }
  }

  lemma {:induction false} NodesSplit(start: Disk, mid: Disk, end: Disk, rows: seq<Row>)
    requires rows != [] && DistinctPaths(rows)
    requires NodeAt(mid, rows[0].path) == UndoneNode(rows[0])
    requires forall p | p != rows[0].path :: NodeAt(mid, p) == NodeAt(start, p)
    requires forall k | 0 <= k < |rows[1..]| :: NodeAt(end, rows[1..][k].path) == UndoneNode(rows[1..][k])
    requires SameElsewhere(mid, end, rows[1..])
    ensures forall k | 0 <= k < |rows| :: NodeAt(end, rows[k].path) == UndoneNode(rows[k])
    ensures SameElsewhere(start, end, rows)
  {
    assert !Mentions(rows[1..], rows[0].path);
    forall k | 0 <= k < |rows| ensures NodeAt(end, rows[k].path) == UndoneNode(rows[k]) {
      if k > 0 { assert rows[k] == rows[1..][k - 1]; }
    }
    forall p | !Mentions(rows, p) ensures NodeAt(start, p) == NodeAt(end, p) {
      assert rows[0].path != p;
      forall k | 0 <= k < |rows| - 1 ensures rows[1..][k].path != p { assert rows[k + 1].path != p; }
      assert !Mentions(rows[1..], p);
    }
  }

  lemma {:induction false} ReversedMentions(rows: seq<Row>, p: Path)
    ensures Mentions(Reversed(rows), p) <==> Mentions(rows, p)
  {
    if Mentions(rows, p) {
      var k :| 0 <= k < |rows| && rows[k].path == p;
      assert Reversed(rows)[|rows| - 1 - k].path == p;
    }
    if Mentions(Reversed(rows), p) {
      var k :| 0 <= k < |rows| && Reversed(rows)[k].path == p;
      assert rows[|rows| - 1 - k].path == p;
    }
  }

  /** What stands at the path is what the row says: nothing, the directory made, or the file with the bytes
      written; a directory also stands for a file left empty. */
  ghost predicate AsEdited(disk: Disk, r: Row) {
    match NodeAt(disk, r.path)
    case None => r.after == None
    case Some(Dir) => r.after.Some? && (r.tool == Mkdir || r.after == Some(Utf8("")))
    case Some(File(data)) => r.tool != Mkdir && r.after == Some(data)
  }

  lemma {:induction false} StillThereIff(disk: Disk, r: Row)
    ensures StillThere(disk, r) <==> AsEdited(disk, r)
  {
  }

  ghost predicate FirstNotAsEdited(disk: Disk, rows: seq<Row>, k: nat) {
    k < |rows| && !AsEdited(disk, rows[k]) && forall j | 0 <= j < k :: AsEdited(disk, rows[j])
  }

  lemma {:induction false} NoChange(disk: Disk, rows: seq<Row>) returns (k: nat)
    ensures match FirstChanged(disk, rows)
            case None => k == |rows| && forall j | 0 <= j < |rows| :: AsEdited(disk, rows[j])
            case Some(path) => FirstNotAsEdited(disk, rows, k) && path == rows[k].path
  {
    k := 0;
    if rows != [] {
      StillThereIff(disk, rows[0]);
      if StillThere(disk, rows[0]) {
        var n := NoChange(disk, rows[1..]);
        k := n + 1;
      }
    }
  }

  /** The newest file of a batch that is not as the edit left it. */
  ghost predicate NewestNotAsEdited(disk: Disk, rows: seq<Row>, k: nat) {
    k < |rows| && !AsEdited(disk, rows[k]) && forall j | k < j < |rows| :: AsEdited(disk, rows[j])
  }

  /** Undo is refused exactly when some file of the last batch is not as the edit left it, and names the
      newest of these; then nothing has been written. */
  lemma {:induction false} RefusedIff(c: Context, s: State, batch: string)
    requires c.journaling
    ensures var (t, error) := Undone(c, s, batch);
            var rows := LastBatch(s.rows, c.session);
            && (error.Some? && error.value.Refused? ==>
                  exists k: nat :: NewestNotAsEdited(s.disk, rows, k) && error == Some(Refused(rows[k].path)))
            && ((exists k | 0 <= k < |rows| :: !AsEdited(s.disk, rows[k])) ==> error.Some? && error.value.Refused?)
            && (error == Some(NothingToUndo) <==> rows == [])
            && (error.Some? && !error.value.Interrupted? ==> t == s)
  {
    var rows := LastBatch(s.rows, c.session);
    var last := Reversed(rows);
    var n := NoChange(s.disk, last);
    if n < |last| {
      forall j | |rows| - 1 - n < j < |rows| ensures AsEdited(s.disk, rows[j]) { assert rows[j] == last[|rows| - 1 - j]; }
      assert NewestNotAsEdited(s.disk, rows, |rows| - 1 - n);
    } else {
      forall k | 0 <= k < |rows| ensures AsEdited(s.disk, rows[k]) { assert rows[k] == last[|rows| - 1 - k]; }
    }
  }

  /** What undoing a batch gives, path by path. */
  lemma {:induction false} LastBatchUndone(c: Context, s: State, rows: seq<Row>, batch: string)
    requires c.journaling && rows != [] && LastBatch(s.rows, c.session) == rows
    requires DistinctPaths(rows) && AllReady(s.disk, rows) && (NoneBelow(rows) || NoDirs(s.disk, rows))
    ensures var (t, error) := Undone(c, s, batch);
            && error == None
            && (forall k | 0 <= k < |rows| :: NodeAt(t.disk, rows[k].path) == UndoneNode(rows[k]))
            && SameElsewhere(s.disk, t.disk, rows)
            && t.rows == s.rows + UndoRecords(c, s.disk, Reversed(rows), |s.rows| + 1, batch)
  {
    var last := Reversed(rows);
    assert Ready(s.disk, rows[0]);
    forall k | 0 <= k < |last| ensures Ready(s.disk, last[k]) { assert Ready(s.disk, rows[|rows| - 1 - k]); }
    assert |last| == |rows| && last != [];
    RefusedIff(c, s, batch);
    var n := NoChange(s.disk, last);
    if n < |last| { StillThereIff(s.disk, last[n]); }
    BatchUndone(c, s, last, batch);
    var t := UndoRows(c, s, last, batch).0;
    forall k | 0 <= k < |rows| ensures NodeAt(t.disk, rows[k].path) == UndoneNode(rows[k]) {
      assert last[|rows| - 1 - k] == rows[k];
    }
    forall p | !Mentions(rows, p) ensures NodeAt(s.disk, p) == NodeAt(t.disk, p) { ReversedMentions(rows, p); }
  }

  /****** Undo restores, and undoing again reapplies ******/

  lemma {:induction false} ExplainedIsReady(before: Disk, after: Disk, rows: seq<Row>)
    requires Explains(before, after, rows)
    ensures AllReady(after, rows) && NoDirs(after, rows)
  {
    forall k | 0 <= k < |rows| ensures Ready(after, rows[k]) && !(rows[k].path in after && after[rows[k].path].Dir?) {
      assert NodeAt(after, rows[k].path) == AsNode(rows[k].after);
    }
  }

  ghost predicate AnyVanished(rows: seq<Row>) {
    exists k | 0 <= k < |rows| :: Vanished(rows[k])
  }

  /** Undoing the last batch brings back the disk before it, except that an empty file that was deleted
      or renamed comes back as a directory. */
  lemma {:induction false} UndoRestoresIff(c: Context, before: Disk, s: State, rows: seq<Row>, batch: string)
    requires c.journaling && rows != [] && LastBatch(s.rows, c.session) == rows && Explains(before, s.disk, rows)
    ensures var (t, error) := Undone(c, s, batch);
            error == None && (t.disk == before <==> !AnyVanished(rows))
  {
    ExplainedIsReady(before, s.disk, rows);
    LastBatchUndone(c, s, rows, batch);
    var t := Undone(c, s, batch).0;
    if AnyVanished(rows) {
      var k :| 0 <= k < |rows| && Vanished(rows[k]);
      assert NodeAt(t.disk, rows[k].path) == Some(Dir) && NodeAt(before, rows[k].path) == AsNode(rows[k].before);
    } else {
      forall p ensures NodeAt(t.disk, p) == NodeAt(before, p) {
        if Mentions(rows, p) {
          var k :| 0 <= k < |rows| && rows[k].path == p;
          assert NodeAt(before, p) == AsNode(rows[k].before) && !Vanished(rows[k]);
        } else {
          assert NodeAt(before, p) == NodeAt(s.disk, p) == NodeAt(t.disk, p);
        }
      }
      SameDisk(t.disk, before);
    }
  }

  /** Nothing lies below a file. */
  ghost predicate TreeLike(disk: Disk) {
    forall p, q | p in disk && q in disk && disk[p].File? :: !(p + "/" <= q)
  }

  lemma {:induction false} RecordIsReady(before: Disk, after: Disk, t: Disk, r: Row, u: Row)
    requires NodeAt(before, r.path) == AsNode(r.before) && NodeAt(after, r.path) == AsNode(r.after)
    requires NodeAt(t, r.path) == UndoneNode(r) && (Vanished(r) ==> IsEmptyDir(t, r.path))
    requires u.tool.UndoEdit? && u.path == r.path && u.before == UndoBefore(after, r) && u.after == r.before
    ensures Ready(t, u) && UndoneNode(u) == NodeAt(after, u.path)
  {
    assert u.before == r.after;
  }

  lemma {:induction false} UndoneIsReady(c: Context, before: Disk, s: State, t: Disk, rows: seq<Row>, from: nat, batch: string)
    requires Explains(before, s.disk, rows) && NoneBelow(rows) && TreeLike(before)
    requires forall k | 0 <= k < |rows| :: NodeAt(t, rows[k].path) == UndoneNode(rows[k])
    requires SameElsewhere(s.disk, t, rows)
    ensures var records := UndoRecords(c, s.disk, Reversed(rows), from, batch);
            && DistinctPaths(records) && NoneBelow(records) && AllReady(t, records)
            && (forall k | 0 <= k < |records| :: UndoneNode(records[k]) == NodeAt(s.disk, records[k].path))
            && (forall p :: Mentions(records, p) <==> Mentions(rows, p))
  {
    var last := Reversed(rows);
    var records := UndoRecords(c, s.disk, last, from, batch);
    forall k | 0 <= k < |records| ensures Ready(t, records[k]) && UndoneNode(records[k]) == NodeAt(s.disk, records[k].path) {
      assert last[k] == rows[|rows| - 1 - k];
      if Vanished(rows[|rows| - 1 - k]) { BelowIsEmpty(before, s.disk, t, rows, |rows| - 1 - k); }
      RecordIsReady(before, s.disk, t, rows[|rows| - 1 - k], records[k]);
    }
    forall p ensures Mentions(records, p) <==> Mentions(rows, p) {
      ReversedMentions(rows, p);
      SamePaths(records, last, p);
    }
  }

  lemma {:induction false} SamePaths(a: seq<Row>, b: seq<Row>, p: Path)
    requires |a| == |b| && forall k | 0 <= k < |a| :: a[k].path == b[k].path
    ensures Mentions(a, p) <==> Mentions(b, p)
  {
    if Mentions(a, p) { var k :| 0 <= k < |a| && a[k].path == p; assert b[k].path == p; }
    if Mentions(b, p) { var k :| 0 <= k < |b| && b[k].path == p; assert a[k].path == p; }
  }

  lemma {:induction false} BelowIsEmpty(before: Disk, after: Disk, t: Disk, rows: seq<Row>, k: nat)
    requires Explains(before, after, rows) && NoneBelow(rows) && TreeLike(before) && k < |rows| && rows[k].before.Some?
    requires SameElsewhere(after, t, rows)
    ensures IsEmptyDir(t, rows[k].path)
  {
    var p := rows[k].path;
    assert NodeAt(before, p) == AsNode(rows[k].before);
    forall q | q in t ensures !(p + "/" <= q) {
      if Mentions(rows, q) {
        var n :| 0 <= n < |rows| && rows[n].path == q;
        assert !(rows[k].path + "/" <= rows[n].path);
      } else {
        assert NodeAt(before, q) == NodeAt(after, q) == NodeAt(t, q);
      }
    }
  }

  /** A second undo applies the batch again, the one with directories for empty files included. */
  lemma {:induction false} SecondUndoReapplies(c: Context, before: Disk, s: State, rows: seq<Row>, batch: string, again: string)
    requires c.journaling && rows != [] && LastBatch(s.rows, c.session) == rows && Explains(before, s.disk, rows)
    requires NoneBelow(rows) && TreeLike(before) && batch != "" && Unused(s.rows, batch)
    ensures var t := Undone(c, s, batch).0;
            var (u, error) := Undone(c, t, again);
            error == None && u.disk == s.disk
  {
    ExplainedIsReady(before, s.disk, rows);
    LastBatchUndone(c, s, rows, batch);
    var t := Undone(c, s, batch).0;
    var records := UndoRecords(c, s.disk, Reversed(rows), |s.rows| + 1, batch);
    UndoneIsReady(c, before, s, t.disk, rows, |s.rows| + 1, batch);
    NewBatchIsLast(s.rows, records, c.session, batch);
    LastBatchUndone(c, t, records, again);
    var u := Undone(c, t, again).0;
    forall p ensures NodeAt(u.disk, p) == NodeAt(s.disk, p) {
      if Mentions(records, p) {
        var k :| 0 <= k < |records| && records[k].path == p;
        assert UndoneNode(records[k]) == NodeAt(s.disk, records[k].path);
      } else {
        assert !Mentions(rows, p);
        assert NodeAt(s.disk, p) == NodeAt(t.disk, p) == NodeAt(u.disk, p);
      }
    }
    SameDisk(u.disk, s.disk);
  }
}
