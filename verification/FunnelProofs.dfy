/** Every operation of the funnel can be undone, and a multi-file edit is all or nothing. */
module FunnelProofs {
  import opened FileId
  import opened Journals
  import opened UndoProofs
  import opened WriteFunnel
  import opened Wrappers

  /****** Committing several files ******/

  ghost predicate DistinctItems(items: seq<Prepared>) {
    forall i, j | 0 <= i < j < |items| :: items[i].path != items[j].path
  }

  /** Each item describes the file it is for; an item that changes nothing has the bytes already. */
  ghost predicate Describes(disk: Disk, items: seq<Prepared>) {
    forall k | 0 <= k < |items| ::
      && items[k].before.Some? && NodeAt(disk, items[k].path) == AsNode(items[k].before)
      && (items[k].noop ==> items[k].after == items[k].before.value)
  }

  /** The items written before the first write that fails. */
  function Landed(items: seq<Prepared>, fails: Path -> bool): (r: seq<Prepared>)
    ensures forall x | x in r :: x in items && !x.noop
  {
    if items == [] || (!items[0].noop && fails(items[0].path)) then []
    else (if items[0].noop then [] else [items[0]]) + Landed(items[1..], fails)
  }

  /** The journal rows of written items. */
  function RowsOf(c: Context, items: seq<Prepared>, from: nat, tool: Tool, batch: string): (r: seq<Row>)
    ensures |r| == |items|
    ensures forall k | 0 <= k < |r| ::
              r[k] == Row(from + k, c.session, batch, items[k].path, tool, items[k].before, Some(items[k].after))
  {
    seq(|items|, k requires 0 <= k < |items| =>
      Row(from + k, c.session, batch, items[k].path, tool, items[k].before, Some(items[k].after)))
  }

  function Ids(outcomes: seq<Outcome>): seq<nat> {
    if outcomes == [] then []
    else (if outcomes[0].editId.Some? then [outcomes[0].editId.value] else []) + Ids(outcomes[1..])
  }

  function CountUp(from: nat, n: nat): (r: seq<nat>)
    ensures |r| == n && forall k | 0 <= k < n :: r[k] == from + k
  {
    seq(n, k requires 0 <= k < n => from + k)
  }

  /** The disk with the written items in place. */
  ghost predicate Holds(start: Disk, end: Disk, items: seq<Prepared>) {
    && (forall k | 0 <= k < |items| :: NodeAt(end, items[k].path) == Some(File(items[k].after)))
    && (forall p | (forall k | 0 <= k < |items| :: items[k].path != p) :: NodeAt(end, p) == NodeAt(start, p))
  }

  lemma {:induction false} HoldsCons(start: Disk, end: Disk, item: Prepared, rest: seq<Prepared>)
    requires Holds(start[item.path := File(item.after)], end, rest)
    requires forall k | 0 <= k < |rest| :: rest[k].path != item.path
    ensures Holds(start, end, [item] + rest)
  {
    var items := [item] + rest;
    assert NodeAt(start[item.path := File(item.after)], item.path) == Some(File(item.after));
    forall k | 0 <= k < |items| ensures NodeAt(end, items[k].path) == Some(File(items[k].after)) {
      if k > 0 { assert items[k] == rest[k - 1]; }
    }
    forall p | (forall k | 0 <= k < |items| :: items[k].path != p) ensures NodeAt(end, p) == NodeAt(start, p) {
      assert items[0].path != p;
      forall k | 0 <= k < |rest| ensures rest[k].path != p { assert items[k + 1] == rest[k]; }
      assert NodeAt(end, p) == NodeAt(start[item.path := File(item.after)], p);
    }
  }

  /** What the commit loop leaves on disk, in the journal and for the rollback. */
  ghost predicate CommitGives(c: Context, s: State, items: seq<Prepared>, tool: Tool, batch: string, r: (State, seq<Outcome>, bool), landed: seq<Prepared>) {
    && Holds(s.disk, r.0.disk, landed)
    && r.0.rows == RowsAfter(c, s.rows, landed, tool, batch)
    && Ids(r.1) == IdsAfter(c, |s.rows|, |landed|)
  }

  lemma {:induction false} LandedNext(items: seq<Prepared>, fails: Path -> bool)
    requires items != []
    ensures Landed(items, fails) ==
            if items[0].noop then Landed(items[1..], fails)
            else if fails(items[0].path) then [] else [items[0]] + Landed(items[1..], fails)
  {
    assert [] + Landed(items[1..], fails) == Landed(items[1..], fails);
  }

  predicate Goes(items: seq<Prepared>, fails: Path -> bool) {
    items != [] && (items[0].noop || !fails(items[0].path))
  }

  lemma {:induction false} LandedElsewhere(items: seq<Prepared>, fails: Path -> bool)
    requires items != [] && DistinctItems(items)
    ensures forall k | 0 <= k < |Landed(items[1..], fails)| :: Landed(items[1..], fails)[k].path != items[0].path
  {
    var rest := Landed(items[1..], fails);
    forall k | 0 <= k < |rest| ensures rest[k].path != items[0].path {
      assert rest[k] in items[1..];
      var j :| 0 <= j < |items[1..]| && items[1..][j] == rest[k];
      assert items[j + 1] == rest[k];
    }
  }

  lemma {:induction false} LandedDistinct(items: seq<Prepared>, fails: Path -> bool)
    requires DistinctItems(items)
    ensures DistinctItems(Landed(items, fails))
  {
    if Goes(items, fails) {
      assert DistinctItems(items[1..]);
      LandedDistinct(items[1..], fails);
      LandedNext(items, fails);
      LandedElsewhere(items, fails);
    }
  }

  lemma {:induction false} CommitDisk(c: Context, s: State, items: seq<Prepared>, tool: Tool, batch: string, fails: Path -> bool)
    requires DistinctItems(items)
    ensures Holds(s.disk, CommitAll(c, s, items, tool, batch, fails).0.disk, Landed(items, fails))
    decreases |items|
  {
    if Goes(items, fails) {
      var next := Committed(c, s, items[0], tool, batch);
      assert DistinctItems(items[1..]);
      CommitDisk(c, next, items[1..], tool, batch, fails);
      LandedNext(items, fails);
      if !items[0].noop {
        LandedElsewhere(items, fails);
        HoldsCons(s.disk, CommitAll(c, s, items, tool, batch, fails).0.disk, items[0], Landed(items[1..], fails));
      }
    }
  }

  lemma {:induction false} CommitUnfolds(c: Context, s: State, items: seq<Prepared>, tool: Tool, batch: string, fails: Path -> bool)
    requires Goes(items, fails)
    ensures var r := CommitAll(c, Committed(c, s, items[0], tool, batch), items[1..], tool, batch, fails);
            CommitAll(c, s, items, tool, batch, fails) == (r.0, [Outcome(items[0].path, EditId(c, s, items[0]))] + r.1, r.2)
  {
  }

  function RowsAfter(c: Context, rows: seq<Row>, landed: seq<Prepared>, tool: Tool, batch: string): seq<Row> {
    if c.journaling then rows + RowsOf(c, landed, |rows| + 1, tool, batch) else rows
  }

  lemma {:induction false} RowsStep(c: Context, s: State, item: Prepared, rest: seq<Prepared>, tool: Tool, batch: string)
    ensures RowsAfter(c, Committed(c, s, item, tool, batch).rows, rest, tool, batch)
         == RowsAfter(c, s.rows, if item.noop then rest else [item] + rest, tool, batch)
  {
    if c.journaling && !item.noop { RowsCons(c, s.rows, item, rest, tool, batch); }
  }

  lemma {:induction false} CommitRows(c: Context, s: State, items: seq<Prepared>, tool: Tool, batch: string, fails: Path -> bool)
    ensures CommitAll(c, s, items, tool, batch, fails).0.rows == RowsAfter(c, s.rows, Landed(items, fails), tool, batch)
    decreases |items|
  {
    if Goes(items, fails) {
      CommitRows(c, Committed(c, s, items[0], tool, batch), items[1..], tool, batch, fails);
      CommitUnfolds(c, s, items, tool, batch, fails);
      LandedNext(items, fails);
      RowsStep(c, s, items[0], Landed(items[1..], fails), tool, batch);
    } else {
      assert Landed(items, fails) == [];
      assert s.rows + RowsOf(c, [], |s.rows| + 1, tool, batch) == s.rows;
    }
  }

  function IdsAfter(c: Context, rows: nat, landed: nat): seq<nat> {
    if c.journaling then CountUp(rows + 1, landed) else []
  }

  lemma {:induction false} IdsStep(c: Context, s: State, item: Prepared, n: nat, tool: Tool, batch: string, outcomes: seq<Outcome>)
    requires Ids(outcomes) == IdsAfter(c, |Committed(c, s, item, tool, batch).rows|, n)
    ensures Ids([Outcome(item.path, EditId(c, s, item))] + outcomes) == IdsAfter(c, |s.rows|, if item.noop then n else n + 1)
  {
    IdsCons(Outcome(item.path, EditId(c, s, item)), outcomes);
    if c.journaling && !item.noop { CountCons(|s.rows| + 1, n); }
  }

  lemma {:induction false} CommitIds(c: Context, s: State, items: seq<Prepared>, tool: Tool, batch: string, fails: Path -> bool)
    ensures Ids(CommitAll(c, s, items, tool, batch, fails).1) == IdsAfter(c, |s.rows|, |Landed(items, fails)|)
    decreases |items|
  {
    if Goes(items, fails) {
      var next := Committed(c, s, items[0], tool, batch);
      CommitIds(c, next, items[1..], tool, batch, fails);
      CommitUnfolds(c, s, items, tool, batch, fails);
      LandedNext(items, fails);
      IdsStep(c, s, items[0], |Landed(items[1..], fails)|, tool, batch, CommitAll(c, next, items[1..], tool, batch, fails).1);
    }
  }

  lemma {:induction false} CountCons(from: nat, n: nat)
    ensures [from] + CountUp(from + 1, n) == CountUp(from, n + 1)
  {
  }

  lemma {:induction false} RowsCons(c: Context, rows: seq<Row>, item: Prepared, landed: seq<Prepared>, tool: Tool, batch: string)
    requires c.journaling
    ensures rows + RowsOf(c, [item] + landed, |rows| + 1, tool, batch)
         == Recorded(c, rows, batch, item.path, tool, item.before, Some(item.after)) + RowsOf(c, landed, |rows| + 2, tool, batch)
  {
    var all := RowsOf(c, [item] + landed, |rows| + 1, tool, batch);
    assert all == [all[0]] + RowsOf(c, landed, |rows| + 2, tool, batch);
  }

  lemma {:induction false} IdsCons(o: Outcome, outcomes: seq<Outcome>)
    ensures Ids([o] + outcomes) == (if o.editId.Some? then [o.editId.value] + Ids(outcomes) else Ids(outcomes))
  {
    assert ([o] + outcomes)[1..] == outcomes;
    assert [] + Ids(outcomes) == Ids(outcomes);
  }

  lemma {:induction false} CommitOutcome(c: Context, s: State, items: seq<Prepared>, tool: Tool, batch: string, fails: Path -> bool)
    requires DistinctItems(items)
    ensures CommitGives(c, s, items, tool, batch, CommitAll(c, s, items, tool, batch, fails), Landed(items, fails))
  {
    CommitDisk(c, s, items, tool, batch, fails);
    CommitRows(c, s, items, tool, batch, fails);
    CommitIds(c, s, items, tool, batch, fails);
  }

  lemma {:induction false} PreparedDescribes(c: Context, s: State, changes: seq<(Path, Change)>)
    requires PrepareAll(c, s, changes).Success?
    ensures var items := PrepareAll(c, s, changes).value;
            && |items| == |changes| && Describes(s.disk, items)
            && forall k | 0 <= k < |items| :: items[k].path == changes[k].0
  {
    if changes != [] { PreparedDescribes(c, s, changes[1..]); }
  }

  ghost predicate DistinctChanges(changes: seq<(Path, Change)>) {
    forall i, j | 0 <= i < j < |changes| :: changes[i].0 != changes[j].0
  }

  lemma {:induction false} LandedDescribes(disk: Disk, items: seq<Prepared>, fails: Path -> bool)
    requires Describes(disk, items)
    ensures Describes(disk, Landed(items, fails))
  {
    forall k | 0 <= k < |Landed(items, fails)|
      ensures var x := Landed(items, fails)[k];
              x.before.Some? && NodeAt(disk, x.path) == AsNode(x.before) && (x.noop ==> x.after == x.before.value)
    {
      var x := Landed(items, fails)[k];
      assert x in items;
      var j :| 0 <= j < |items| && items[j] == x;
    }
  }

  /****** A call whose writes all succeed ******/

  ghost predicate NoneFail(fails: Path -> bool) {
    forall p :: !fails(p)
  }

  lemma {:induction false} AllCommit(c: Context, s: State, items: seq<Prepared>, tool: Tool, batch: string, fails: Path -> bool)
    requires NoneFail(fails)
    ensures CommitAll(c, s, items, tool, batch, fails).2
    decreases |items|
  {
    if items != [] { AllCommit(c, Committed(c, s, items[0], tool, batch), items[1..], tool, batch, fails); }
  }

  lemma {:induction false} AllLand(items: seq<Prepared>, fails: Path -> bool, k: nat)
    requires NoneFail(fails) && k < |items| && !items[k].noop
    ensures items[k] in Landed(items, fails)
  {
    LandedNext(items, fails);
    if k > 0 { AllLand(items[1..], fails, k - 1); }
  }

  /** What such an edit changes on disk. */
  lemma {:induction false} SeveralChange(c: Context, s: State, changes: seq<(Path, Change)>, tool: Tool, batch: string,
                                         fails: Path -> bool, stuck: Path -> bool)
    requires NoneFail(fails) && DistinctChanges(changes) && PrepareAll(c, s, changes).Success?
    ensures var items, t := PrepareAll(c, s, changes).value, AppliedAll(c, s, changes, tool, batch, fails, stuck).0;
            && (forall k | 0 <= k < |items| && !items[k].noop :: NodeAt(t.disk, items[k].path) == Some(File(items[k].after)))
            && (forall p | NodeAt(t.disk, p) != NodeAt(s.disk, p) :: exists k :: 0 <= k < |items| && items[k].path == p && !items[k].noop)
  {
    var items, t := PrepareAll(c, s, changes).value, AppliedAll(c, s, changes, tool, batch, fails, stuck).0;
    var landed := Landed(items, fails);
    PreparedDistinct(c, s, changes);
    AllCommit(c, s, items, tool, batch, fails);
    CommitDisk(c, s, items, tool, batch, fails);
    forall k | 0 <= k < |items| && !items[k].noop ensures NodeAt(t.disk, items[k].path) == Some(File(items[k].after)) {
      AllLand(items, fails, k);
      var j :| 0 <= j < |landed| && landed[j] == items[k];
      assert NodeAt(t.disk, landed[j].path) == Some(File(landed[j].after));
    }
    forall p | NodeAt(t.disk, p) != NodeAt(s.disk, p) ensures exists k :: 0 <= k < |items| && items[k].path == p && !items[k].noop {
      var j :| 0 <= j < |landed| && landed[j].path == p;
      assert landed[j] in landed;
      var k :| 0 <= k < |items| && items[k] == landed[j];
    }
  }

  /****** Rolling back ******/

  lemma {:induction false} FindRowIff(rows: seq<Row>, id: nat)
    ensures FindRow(rows, id).Some? ==> FindRow(rows, id).value in rows && FindRow(rows, id).value.id == id
    ensures FindRow(rows, id).None? ==> forall r | r in rows :: r.id != id
  {
    if rows != [] { FindRowIff(rows[1..], id); }
  }

  /** The rollback finds a row of the batch exactly when it is among the last fifty. */
  lemma {:induction false} FoundIff(rows: seq<Row>, session: string, k: nat)
    requires Numbered(rows) && k < |rows| && forall i | k <= i < |rows| :: rows[i].session == session
    ensures FindRow(Recent(rows, session, ROLLBACK_LOOKBACK), k + 1)
         == if |rows| - k <= 50 then Some(rows[k]) else None
  {
    RecentIff(rows, session, ROLLBACK_LOOKBACK, k);
    CountAll(rows[k + 1..], session);
    RecentIsPart(rows, session, ROLLBACK_LOOKBACK);
    FoundById(rows, Recent(rows, session, ROLLBACK_LOOKBACK), k);
  }

  lemma {:induction false} FoundById(rows: seq<Row>, some: seq<Row>, k: nat)
    requires Numbered(rows) && k < |rows| && forall r | r in some :: r in rows
    ensures FindRow(some, k + 1) == if rows[k] in some then Some(rows[k]) else None
  {
    FindRowIff(some, k + 1);
    assert rows[k].id == k + 1;
    var found := FindRow(some, k + 1);
    if found.Some? {
      var i :| 0 <= i < |rows| && rows[i] == found.value;
      assert rows[i].id == i + 1;
    }
  }

  /** The rollback, seen through the journal ids alone. */
  function RestoreIds(c: Context, s: State, ids: seq<nat>, stuck: Path -> bool): State
    decreases |ids|
  {
    if ids == [] then s
    else RestoreIds(c, Restored(c, s, Outcome("", Some(ids[|ids| - 1])), stuck), ids[..|ids| - 1], stuck)
  }

  lemma {:induction false} IdsLast(outcomes: seq<Outcome>, o: Outcome)
    ensures Ids(outcomes + [o]) == Ids(outcomes) + (if o.editId.Some? then [o.editId.value] else [])
  {
    if outcomes == [] {
      assert outcomes + [o] == [o] && [o][1..] == [];
    } else {
      assert (outcomes + [o])[1..] == outcomes[1..] + [o];
      IdsLast(outcomes[1..], o);
    }
  }

  lemma {:induction false} RolledBackByIds(c: Context, s: State, outcomes: seq<Outcome>, stuck: Path -> bool)
    ensures RolledBack(c, s, outcomes, stuck) == RestoreIds(c, s, Ids(outcomes), stuck)
    decreases |outcomes|
  {
    if outcomes != [] {
      var last, front := outcomes[|outcomes| - 1], outcomes[..|outcomes| - 1];
      assert outcomes == front + [last];
      IdsLast(front, last);
      RolledBackByIds(c, Restored(c, s, last, stuck), front, stuck);
      if last.editId.Some? {
        var ids := Ids(outcomes);
        assert ids[..|ids| - 1] == Ids(front) && ids[|ids| - 1] == last.editId.value;
      } else {
        assert Ids(front) + [] == Ids(front);
      }
    }
  }

  /** Whether the rollback puts the k-th row's file back. */
  predicate PutBack(rows: seq<Row>, k: nat, stuck: Path -> bool)
    requires k < |rows|
  {
    |rows| - k <= ROLLBACK_LOOKBACK && !stuck(rows[k].path)
  }

  function NodeAfter(rows: seq<Row>, k: nat, disk: Disk, stuck: Path -> bool): Option<Node>
    requires k < |rows|
  {
    if PutBack(rows, k, stuck) then AsNode(rows[k].before) else NodeAt(disk, rows[k].path)
  }

  /** The rows of the session from `base` on, each about another file. */
  ghost predicate OneBatch(rows: seq<Row>, session: string, base: nat) {
    && Numbered(rows)
    && (forall i | base <= i < |rows| :: rows[i].session == session)
    && (forall i, j | base <= i < j < |rows| :: rows[i].path != rows[j].path)
  }

  lemma {:induction false} RestoredOne(c: Context, s: State, base: nat, k: nat, stuck: Path -> bool)
    requires c.journaling && OneBatch(s.rows, c.session, base) && base <= k < |s.rows|
    ensures var t := Restored(c, s, Outcome("", Some(k + 1)), stuck);
            && t.rows == s.rows
            && NodeAt(t.disk, s.rows[k].path) == NodeAfter(s.rows, k, s.disk, stuck)
            && forall p | p != s.rows[k].path :: NodeAt(t.disk, p) == NodeAt(s.disk, p)
  {
    FoundIff(s.rows, c.session, k);
  }

  /** The files of rows[base..base + n] are put back where they can be, the rest is as it was. */
  ghost predicate RestoredTo(rows: seq<Row>, base: nat, n: nat, start: Disk, end: Disk, stuck: Path -> bool)
    requires base + n <= |rows|
  {
    && (forall k | base <= k < base + n :: NodeAt(end, rows[k].path) == NodeAfter(rows, k, start, stuck))
    && (forall p | (forall k | base <= k < base + n :: rows[k].path != p) :: NodeAt(end, p) == NodeAt(start, p))
  }

  lemma {:induction false} RestoredStep(rows: seq<Row>, session: string, base: nat, n: nat, start: Disk, mid: Disk, end: Disk, stuck: Path -> bool)
    requires OneBatch(rows, session, base) && 0 < n && base + n <= |rows|
    requires NodeAt(mid, rows[base + n - 1].path) == NodeAfter(rows, base + n - 1, start, stuck)
    requires forall p | p != rows[base + n - 1].path :: NodeAt(mid, p) == NodeAt(start, p)
    requires RestoredTo(rows, base, n - 1, mid, end, stuck)
    ensures RestoredTo(rows, base, n, start, end, stuck)
  {
    var last := base + n - 1;
    forall k | base <= k < base + n ensures NodeAt(end, rows[k].path) == NodeAfter(rows, k, start, stuck) {
      if k < last { assert NodeAt(end, rows[k].path) == NodeAfter(rows, k, mid, stuck); }
    }
  }

  /** After restoring the ids of rows[base..base + n]. */
  lemma {:induction false} RestoredDisk(c: Context, s: State, base: nat, n: nat, stuck: Path -> bool)
    requires c.journaling && OneBatch(s.rows, c.session, base) && base + n <= |s.rows|
    ensures var t := RestoreIds(c, s, CountUp(base + 1, n), stuck);
            t.rows == s.rows && RestoredTo(s.rows, base, n, s.disk, t.disk, stuck)
    decreases n
  {
    if n > 0 {
      var ids, k := CountUp(base + 1, n), base + n - 1;
      assert ids[..n - 1] == CountUp(base + 1, n - 1) && ids[n - 1] == k + 1;
      var next := Restored(c, s, Outcome("", Some(k + 1)), stuck);
      RestoredOne(c, s, base, k, stuck);
      RestoredDisk(c, next, base, n - 1, stuck);
      RestoredStep(s.rows, c.session, base, n, s.disk, next.disk, RestoreIds(c, next, CountUp(base + 1, n - 1), stuck).disk, stuck);
    }
  }

  /****** All or nothing ******/

  /** Whether the k-th written file ends with its original bytes when the edit fails. */
  predicate Survives(c: Context, landed: seq<Prepared>, k: nat, stuck: Path -> bool)
    requires k < |landed|
  {
    || landed[k].before == Some(landed[k].after)
    || (c.journaling && |landed| - k <= 50 && !stuck(landed[k].path))
  }

  lemma {:induction false} RowsNumbered(c: Context, rows: seq<Row>, landed: seq<Prepared>, tool: Tool, batch: string)
    requires Numbered(rows)
    ensures Numbered(rows + RowsOf(c, landed, |rows| + 1, tool, batch))
  {
  }

  /** The rows from `base` on are those of the items, in order. */
  ghost predicate RowsFor(rows: seq<Row>, base: nat, landed: seq<Prepared>) {
    && |rows| == base + |landed|
    && forall k | 0 <= k < |landed| :: rows[base + k].path == landed[k].path && rows[base + k].before == landed[k].before
  }

  lemma {:induction false} BatchRows(c: Context, rows: seq<Row>, landed: seq<Prepared>, tool: Tool, batch: string)
    requires DistinctItems(landed) && Numbered(rows)
    ensures var all := rows + RowsOf(c, landed, |rows| + 1, tool, batch);
            RowsFor(all, |rows|, landed) && OneBatch(all, c.session, |rows|)
  {
    var all := rows + RowsOf(c, landed, |rows| + 1, tool, batch);
    RowsNumbered(c, rows, landed, tool, batch);
    forall i | |rows| <= i < |all| ensures all[i].session == c.session && all[i].path == landed[i - |rows|].path { }
  }

  /** Where each written file ends after the rollback. */
  ghost predicate Ends(c: Context, start: Disk, end: Disk, landed: seq<Prepared>, stuck: Path -> bool) {
    && (forall k | 0 <= k < |landed| :: NodeAt(end, landed[k].path)
          == if c.journaling && |landed| - k <= ROLLBACK_LOOKBACK && !stuck(landed[k].path) then AsNode(landed[k].before)
             else Some(File(landed[k].after)))
    && (forall p | (forall k | 0 <= k < |landed| :: landed[k].path != p) :: NodeAt(end, p) == NodeAt(start, p))
  }

  lemma {:induction false} RestoredEnds(c: Context, s: State, t: State, landed: seq<Prepared>, tool: Tool, batch: string, stuck: Path -> bool)
    requires c.journaling && Numbered(s.rows) && DistinctItems(landed) && Holds(s.disk, t.disk, landed)
    requires t.rows == s.rows + RowsOf(c, landed, |s.rows| + 1, tool, batch)
    ensures var u := RestoreIds(c, t, CountUp(|s.rows| + 1, |landed|), stuck);
            Ends(c, s.disk, u.disk, landed, stuck) && u.rows == t.rows
  {
    BatchRows(c, s.rows, landed, tool, batch);
    RestoredBatch(c, t, |s.rows|, s.disk, landed, stuck);
  }

  lemma {:induction false} RestoredBatch(c: Context, t: State, base: nat, start: Disk, landed: seq<Prepared>, stuck: Path -> bool)
    requires c.journaling && RowsFor(t.rows, base, landed) && OneBatch(t.rows, c.session, base) && Holds(start, t.disk, landed)
    ensures var u := RestoreIds(c, t, CountUp(base + 1, |landed|), stuck);
            Ends(c, start, u.disk, landed, stuck) && u.rows == t.rows
  {
    RestoredDisk(c, t, base, |landed|, stuck);
    EndsByRows(c, start, t.disk, RestoreIds(c, t, CountUp(base + 1, |landed|), stuck).disk, t.rows, base, landed, stuck);
  }

  /** From the rows of the table back to the items they were written for. */
  lemma {:induction false} EndsByRows(c: Context, start: Disk, mid: Disk, end: Disk, rows: seq<Row>, base: nat,
                                      landed: seq<Prepared>, stuck: Path -> bool)
    requires c.journaling && RowsFor(rows, base, landed) && Holds(start, mid, landed)
    requires RestoredTo(rows, base, |landed|, mid, end, stuck)
    ensures Ends(c, start, end, landed, stuck)
  {
    forall k | 0 <= k < |landed|
      ensures NodeAt(end, landed[k].path) == if |landed| - k <= ROLLBACK_LOOKBACK && !stuck(landed[k].path) then AsNode(landed[k].before)
                                             else Some(File(landed[k].after))
    {
      assert rows[base + k].path == landed[k].path;
      assert NodeAt(end, rows[base + k].path) == NodeAfter(rows, base + k, mid, stuck);
    }
    forall p | (forall k | 0 <= k < |landed| :: landed[k].path != p) ensures NodeAt(end, p) == NodeAt(start, p) {
      forall k | base <= k < |rows| ensures rows[k].path != p { assert rows[base + (k - base)].path == landed[k - base].path; }
    }
  }

  lemma {:induction false} RolledBackDisk(c: Context, s: State, items: seq<Prepared>, tool: Tool, batch: string,
                                          fails: Path -> bool, stuck: Path -> bool)
    requires Numbered(s.rows) && DistinctItems(items) && Describes(s.disk, items)
    ensures var (t, outcomes, _) := CommitAll(c, s, items, tool, batch, fails);
            var u := RolledBack(c, t, outcomes, stuck);
            var landed := Landed(items, fails);
            && Ends(c, s.disk, u.disk, landed, stuck)
            && u.rows == (if c.journaling then s.rows + RowsOf(c, landed, |s.rows| + 1, tool, batch) else s.rows)
  {
    var landed := Landed(items, fails);
    var (t, outcomes, _) := CommitAll(c, s, items, tool, batch, fails);
    CommitOutcome(c, s, items, tool, batch, fails);
    LandedDistinct(items, fails);
    RolledBackByIds(c, t, outcomes, stuck);
    if c.journaling { RestoredEnds(c, s, t, landed, tool, batch, stuck); }
  }

  ghost predicate AllSurvive(c: Context, landed: seq<Prepared>, stuck: Path -> bool) {
    forall k | 0 <= k < |landed| :: Survives(c, landed, k, stuck)
  }

  lemma {:induction false} SameIffSurvive(c: Context, start: Disk, end: Disk, landed: seq<Prepared>, stuck: Path -> bool)
    requires Describes(start, landed) && Ends(c, start, end, landed, stuck)
    ensures end == start <==> AllSurvive(c, landed, stuck)
  {
    if AllSurvive(c, landed, stuck) {
      forall p ensures NodeAt(end, p) == NodeAt(start, p) {
        if k :| 0 <= k < |landed| && landed[k].path == p { assert Survives(c, landed, k, stuck); }
      }
      SameDisk(end, start);
    }
    if end == start {
      forall k | 0 <= k < |landed| ensures Survives(c, landed, k, stuck) {
        assert NodeAt(start, landed[k].path) == AsNode(landed[k].before);
      }
    }
  }

  lemma {:induction false} PreparedDistinct(c: Context, s: State, changes: seq<(Path, Change)>)
    requires DistinctChanges(changes) && PrepareAll(c, s, changes).Success?
    ensures DistinctItems(PrepareAll(c, s, changes).value) && Describes(s.disk, PrepareAll(c, s, changes).value)
  {
    PreparedDescribes(c, s, changes);
  }

  /**
   A multi-file edit that fails leaves every file with its original bytes exactly when each file already
   written either kept its bytes, or has a journal row among the last fifty and can be written back.
   */
  lemma {:induction false} AllOrNothingIff(c: Context, s: State, changes: seq<(Path, Change)>, tool: Tool, batch: string,
                                           fails: Path -> bool, stuck: Path -> bool)
    requires Numbered(s.rows) && DistinctChanges(changes)
    requires AppliedAll(c, s, changes, tool, batch, fails, stuck).1.Some?
    ensures var t := AppliedAll(c, s, changes, tool, batch, fails, stuck).0;
            var items := PrepareAll(c, s, changes);
            && (items.Failure? ==> t == s)
            && (items.Success? ==> (t.disk == s.disk <==> AllSurvive(c, Landed(items.value, fails), stuck)))
  {
    if PrepareAll(c, s, changes).Success? {
      var items := PrepareAll(c, s, changes).value;
      PreparedDistinct(c, s, changes);
      LandedDescribes(s.disk, items, fails);
      RolledBackDisk(c, s, items, tool, batch, fails, stuck);
      SameIffSurvive(c, s.disk, AppliedAll(c, s, changes, tool, batch, fails, stuck).0.disk, Landed(items, fails), stuck);
    }
  }

  ghost predicate SameBytes(landed: seq<Prepared>) {
    forall k | 0 <= k < |landed| :: landed[k].before == Some(landed[k].after)
  }

  /** The rows of a failed edit stay in the journal: after a complete rollback undo is refused exactly when
      some file had been given other bytes. */
  lemma {:induction false} UndoAfterRollbackIff(c: Context, s: State, changes: seq<(Path, Change)>, tool: Tool, batch: string,
                                                fails: Path -> bool, stuck: Path -> bool, undo: string)
    requires c.journaling && Numbered(s.rows) && DistinctChanges(changes) && !tool.Mkdir?
    requires batch != "" && Unused(s.rows, batch) && PrepareAll(c, s, changes).Success?
    requires var (t, error) := AppliedAll(c, s, changes, tool, batch, fails, stuck);
             error.Some? && t.disk == s.disk
    requires Landed(PrepareAll(c, s, changes).value, fails) != []
    ensures var t := AppliedAll(c, s, changes, tool, batch, fails, stuck).0;
            var error := Undone(c, t, undo).1;
            error.Some? && error.value.Refused? <==> !SameBytes(Landed(PrepareAll(c, s, changes).value, fails))
  {
    var items := PrepareAll(c, s, changes).value;
    var landed := Landed(items, fails);
    PreparedDistinct(c, s, changes);
    LandedDescribes(s.disk, items, fails);
    RolledBackDisk(c, s, items, tool, batch, fails, stuck);
    var u := AppliedAll(c, s, changes, tool, batch, fails, stuck).0;
    var rows := RowsOf(c, landed, |s.rows| + 1, tool, batch);
    NewBatchIsLast(s.rows, rows, c.session, batch);
    RefusedIff(c, u, undo);
    ChangedRows(c, s.disk, landed, |s.rows| + 1, tool, batch);
  }

  lemma {:induction false} ChangedRows(c: Context, disk: Disk, landed: seq<Prepared>, from: nat, tool: Tool, batch: string)
    requires Describes(disk, landed) && !tool.Mkdir?
    ensures var rows := RowsOf(c, landed, from, tool, batch);
            (exists k | 0 <= k < |rows| :: !AsEdited(disk, rows[k])) <==> !SameBytes(landed)
  {
    var rows := RowsOf(c, landed, from, tool, batch);
    forall k | 0 <= k < |rows| ensures AsEdited(disk, rows[k]) <==> landed[k].before == Some(landed[k].after) {
      assert NodeAt(disk, landed[k].path) == AsNode(landed[k].before);
    }
    if !SameBytes(landed) {
      var k :| 0 <= k < |landed| && landed[k].before != Some(landed[k].after);
      assert !AsEdited(disk, rows[k]);
    }
  }
}
