/** One name for every operation of the funnel, and undo for all of them. */
module Operations {
  import opened FileId
  import opened FunnelProofs
  import opened Journals
  import opened UndoProofs
  import opened WriteFunnel
  import opened Wrappers

  datatype Operation =
    | Edit(path: Path, change: Change)
    | Create(path: Path, change: Change, sibling: Source)
    | Delete(path: Path)
    | Rename(path: Path, to: Path)
    | Several(changes: seq<(Path, Change)>)

  function Perform(c: Context, s: State, op: Operation, tool: Tool, batch: string): Result<State, EditError> {
    match op
    case Edit(path, change) =>
      var item := PrepareEdit(c, s, path, change, true);
      if item.Failure? then Failure(item.error) else Success(Committed(c, s, item.value, tool, batch))
    case Create(path, change, sibling) =>
      var item := PrepareCreate(c, s, path, change, sibling);
      if item.Failure? then Failure(item.error) else Success(Committed(c, s, item.value, tool, batch))
    case Delete(path) => Deleted(c, s, path, batch)
    case Rename(path, to) => Renamed(c, s, path, to, batch)
    case Several(changes) =>
      var (t, error) := AppliedAll(c, s, changes, tool, batch, _ => false, _ => false);
      if error.Some? then Failure(error.value) else Success(t)
  }

  /** What a single edit leaves on disk. */
  ghost predicate Edited(c: Context, s: State, disk: Disk, path: Path, change: Change) {
    exists item ::
      && EditPrepared(c, s, path, change, true, item)
      && disk == if item.noop then s.disk else s.disk[path := File(item.after)]
  }

  /** What an operation that succeeds leaves on disk, in terms of the texts asked for. */
  ghost predicate Writes(c: Context, s: State, disk: Disk, op: Operation) {
    match op
    case Edit(path, change) => Edited(c, s, disk, path, change)
    case Create(path, change, sibling) =>
      exists item :: CreatePrepared(c, s, path, change, sibling, item) && disk == s.disk[path := File(item.after)]
    case Delete(path) =>
      && c.writable(path) && path in s.disk && disk == s.disk - {path}
      && (s.disk[path].Dir? ==> forall q | q in s.disk :: !(path + "/" <= q))
    case Rename(path, to) =>
      c.writable(path) && c.writable(to) && path in s.disk && s.disk[path].File? && to !in s.disk && disk == s.disk[to := s.disk[path]] - {path}
    case Several(changes) =>
      && (forall k | 0 <= k < |changes| :: FileOfSeveral(c, s, disk, changes[k].0, changes[k].1))
      && (forall p | (forall k | 0 <= k < |changes| :: changes[k].0 != p) :: NodeAt(disk, p) == NodeAt(s.disk, p))
  }

  /** Why an operation is refused. */
  ghost predicate Refuses(c: Context, s: State, op: Operation, error: EditError) {
    match op
    case Edit(path, change) => EditRefused(c, s, path, change, true, error)
    case Create(path, change, sibling) => CreateRefused(c, s, path, change, sibling, error)
    case Delete(path) =>
      if !c.writable(path) then error == NotWritable
      else if path !in s.disk then error == NotFound
      else error == DirectoryNotEmpty && s.disk[path] == Dir && exists q | q in s.disk :: path + "/" <= q
    case Rename(path, to) =>
      if !c.writable(path) || !c.writable(to) then error == NotWritable
      else if path !in s.disk then error == NotFound
      else if to in s.disk then error == AlreadyExists
      else error == NotAFile && s.disk[path] == Dir
    case Several(changes) =>
      exists k: nat :: FirstRefused(c, s, changes, k, error)
  }

  /** An operation that fails had a reason to. */
  lemma {:induction false} RefusedForAReason(c: Context, s: State, op: Operation, tool: Tool, batch: string)
    requires Perform(c, s, op, tool, batch).Failure?
    ensures Refuses(c, s, op, Perform(c, s, op, tool, batch).error)
  {
    match op
    case Edit(path, change) => PrepareEditMeans(c, s, path, change, true);
    case Create(path, change, sibling) => PrepareCreateMeans(c, s, path, change, sibling);
    case Delete(_) =>
    case Rename(_, _) =>
    case Several(changes) =>
      PrepareAllMeans(c, s, changes);
      if PrepareAll(c, s, changes).Success? { NeverFails(c, s, PrepareAll(c, s, changes).value, tool, batch); }
  }

  /** The tracker is up to date on a path, or both it and the path are as before. */
  ghost predicate Tracked(s: State, t: State, p: Path) {
    || (p in t.digests && t.digests[p] == Content(t.disk, p))
    || (NodeAt(t.disk, p) == NodeAt(s.disk, p) && (p in t.digests <==> p in s.digests)
        && (p in s.digests ==> t.digests[p] == s.digests[p]))
  }

  lemma {:induction false} CommitsTracked(c: Context, s: State, items: seq<Prepared>, tool: Tool, batch: string, p: Path)
    requires c.tracking
    ensures Tracked(s, CommitAll(c, s, items, tool, batch, _ => false).0, p)
    decreases |items|
  {
    if items != [] {
      var next := Committed(c, s, items[0], tool, batch);
      CommitsTracked(c, next, items[1..], tool, batch, p);
      assert Tracked(s, next, p);
    }
  }

  /** After an operation the tracker holds the digest of every path it wrote, and no other digest has
      changed. */
  lemma {:induction false} OperationIsTracked(c: Context, s: State, op: Operation, tool: Tool, batch: string, p: Path)
    requires Perform(c, s, op, tool, batch).Success?
    ensures var t := Perform(c, s, op, tool, batch).value;
            if c.tracking then Tracked(s, t, p) else t.digests == s.digests
  {
    if op.Several? {
      if c.tracking { CommitsTracked(c, s, PrepareAll(c, s, op.changes).value, tool, batch, p); }
      else { NoTracker(c, s, PrepareAll(c, s, op.changes).value, tool, batch); }
      NeverFails(c, s, PrepareAll(c, s, op.changes).value, tool, batch);
    }
  }

  lemma {:induction false} NoTracker(c: Context, s: State, items: seq<Prepared>, tool: Tool, batch: string)
    requires !c.tracking
    ensures CommitAll(c, s, items, tool, batch, _ => false).0.digests == s.digests
    decreases |items|
  {
    if items != [] { NoTracker(c, Committed(c, s, items[0], tool, batch), items[1..], tool, batch); }
  }

  ghost predicate FileOfSeveral(c: Context, s: State, disk: Disk, path: Path, change: Change) {
    exists item ::
      && EditPrepared(c, s, path, change, false, item)
      && NodeAt(disk, path) == if item.noop then NodeAt(s.disk, path) else Some(File(item.after))
  }

  /** Every operation that succeeds has written the texts it was asked for: each file keeps its mark, its
      newline style and its final newline, and a new one takes those of its sibling. */
  lemma {:induction false} OperationWrites(c: Context, s: State, op: Operation, tool: Tool, batch: string)
    requires Perform(c, s, op, tool, batch).Success? && (op.Several? ==> DistinctChanges(op.changes))
    ensures Writes(c, s, Perform(c, s, op, tool, batch).value.disk, op)
  {
    match op
    case Edit(path, change) => PrepareEditMeans(c, s, path, change, true);
    case Create(path, change, sibling) => PrepareCreateMeans(c, s, path, change, sibling);
    case Delete(_) =>
    case Rename(_, _) =>
    case Several(changes) => SeveralWrites(c, s, changes, tool, batch);
  }

  lemma {:induction false} SeveralWrites(c: Context, s: State, changes: seq<(Path, Change)>, tool: Tool, batch: string)
    requires DistinctChanges(changes) && PrepareAll(c, s, changes).Success?
    ensures Writes(c, s, AppliedAll(c, s, changes, tool, batch, _ => false, _ => false).0.disk, Several(changes))
  {
    var items, t := PrepareAll(c, s, changes).value, AppliedAll(c, s, changes, tool, batch, _ => false, _ => false).0;
    PrepareAllMeans(c, s, changes);
    PreparedDescribes(c, s, changes);
    PreparedDistinct(c, s, changes);
    SeveralChange(c, s, changes, tool, batch, _ => false, _ => false);
    assert forall j | 0 <= j < |items| :: items[j].path == changes[j].0;
    forall k | 0 <= k < |changes| ensures FileOfSeveral(c, s, t.disk, changes[k].0, changes[k].1) {
      assert EditPrepared(c, s, changes[k].0, changes[k].1, false, items[k]);
    }
  }

  /** Deleting or renaming an empty file. */
  predicate MovesEmptyFile(disk: Disk, op: Operation) {
    (op.Delete? || op.Rename?) && Content(disk, op.path) == Some(Utf8(""))
  }

  /** The cases the model covers: no directory is deleted, and no file is listed twice. */
  ghost predicate Covered(disk: Disk, op: Operation) {
    && (op.Delete? ==> op.path in disk ==> disk[op.path].File?)
    && (op.Several? ==> DistinctChanges(op.changes))
  }

  /** The operation has recorded the rows that explain what it did to the disk. */
  ghost predicate Did(c: Context, s: State, t: State, batch: string, rows: seq<Row>) {
    t.rows == s.rows + rows && AllOf(rows, c.session, batch) && Explains(s.disk, t.disk, rows)
  }

  lemma {:induction false} CommittedDid(c: Context, s: State, item: Prepared, tool: Tool, batch: string)
    requires c.journaling && !item.noop && !tool.Mkdir? && NodeAt(s.disk, item.path) == AsNode(item.before)
    ensures Did(c, s, Committed(c, s, item, tool, batch), batch,
                [Row(|s.rows| + 1, c.session, batch, item.path, tool, item.before, Some(item.after))])
  {
    var rows := [Row(|s.rows| + 1, c.session, batch, item.path, tool, item.before, Some(item.after))];
    var t := Committed(c, s, item, tool, batch);
    forall p | !Mentions(rows, p) ensures NodeAt(s.disk, p) == NodeAt(t.disk, p) { assert rows[0].path != p; }
  }

  lemma {:induction false} DeletedDid(c: Context, s: State, path: Path, batch: string)
    requires c.journaling && Deleted(c, s, path, batch).Success? && Content(s.disk, path).Some?
    ensures Did(c, s, Deleted(c, s, path, batch).value, batch,
                [Row(|s.rows| + 1, c.session, batch, path, DeletePath, Content(s.disk, path), None)])
  {
    var rows := [Row(|s.rows| + 1, c.session, batch, path, DeletePath, Content(s.disk, path), None)];
    var t := Deleted(c, s, path, batch).value;
    forall p | !Mentions(rows, p) ensures NodeAt(s.disk, p) == NodeAt(t.disk, p) { assert rows[0].path != p; }
  }

  function RenameRows(c: Context, s: State, from: Path, to: Path, batch: string): seq<Row> {
    var data := Content(s.disk, from);
    [Row(|s.rows| + 1, c.session, batch, to, RenamePath, None, data),
     Row(|s.rows| + 2, c.session, batch, from, RenamePath, data, None)]
  }

  lemma {:induction false} RenamedDid(c: Context, s: State, from: Path, to: Path, batch: string)
    requires c.journaling && Renamed(c, s, from, to, batch).Success?
    ensures Did(c, s, Renamed(c, s, from, to, batch).value, batch, RenameRows(c, s, from, to, batch))
  {
    var rows := RenameRows(c, s, from, to, batch);
    var t := Renamed(c, s, from, to, batch).value;
    forall p | !Mentions(rows, p) ensures NodeAt(s.disk, p) == NodeAt(t.disk, p) {
      assert rows[0].path != p && rows[1].path != p;
    }
  }

  lemma {:induction false} NeverFails(c: Context, s: State, items: seq<Prepared>, tool: Tool, batch: string)
    ensures CommitAll(c, s, items, tool, batch, _ => false).2
    decreases |items|
  {
    if items != [] { NeverFails(c, Committed(c, s, items[0], tool, batch), items[1..], tool, batch); }
  }

  lemma {:induction false} SeveralDid(c: Context, s: State, changes: seq<(Path, Change)>, tool: Tool, batch: string)
    requires c.journaling && !tool.Mkdir? && DistinctChanges(changes) && PrepareAll(c, s, changes).Success?
    ensures var items := PrepareAll(c, s, changes).value;
            var t := AppliedAll(c, s, changes, tool, batch, _ => false, _ => false);
            && t.1.None?
            && Did(c, s, t.0, batch, RowsOf(c, Landed(items, _ => false), |s.rows| + 1, tool, batch))
  {
    var items := PrepareAll(c, s, changes).value;
    var landed := Landed(items, _ => false);
    PreparedDistinct(c, s, changes);
    LandedDescribes(s.disk, items, _ => false);
    LandedDistinct(items, _ => false);
    CommitOutcome(c, s, items, tool, batch, _ => false);
    NeverFails(c, s, items, tool, batch);
    LandedExplain(c, s, AppliedAll(c, s, changes, tool, batch, _ => false, _ => false).0, landed, tool, batch);
  }

  lemma {:induction false} LandedExplain(c: Context, s: State, t: State, landed: seq<Prepared>, tool: Tool, batch: string)
    requires c.journaling && !tool.Mkdir? && DistinctItems(landed) && Describes(s.disk, landed) && Holds(s.disk, t.disk, landed)
    requires t.rows == s.rows + RowsOf(c, landed, |s.rows| + 1, tool, batch)
    ensures Did(c, s, t, batch, RowsOf(c, landed, |s.rows| + 1, tool, batch))
  {
    var rows := RowsOf(c, landed, |s.rows| + 1, tool, batch);
    forall p | !Mentions(rows, p) ensures NodeAt(s.disk, p) == NodeAt(t.disk, p) {
      forall k | 0 <= k < |landed| ensures landed[k].path != p { assert rows[k].path != p; }
    }
  }

  /** The paths an operation is about. */
  ghost predicate About(op: Operation, p: Path) {
    match op
    case Several(changes) => exists k | 0 <= k < |changes| :: changes[k].0 == p
    case Rename(path, to) => p == path || p == to
    case _ => p == op.path
  }

  ghost predicate PathsApart(op: Operation) {
    forall p, q | About(op, p) && About(op, q) :: !(p + "/" <= q)
  }

  /** Every operation that succeeds records what it did, under its own batch. */
  lemma {:induction false} PerformedDid(c: Context, s: State, op: Operation, tool: Tool, batch: string) returns (rows: seq<Row>)
    requires c.journaling && tool.EditTool? && Covered(s.disk, op) && Perform(c, s, op, tool, batch).Success?
    ensures Did(c, s, Perform(c, s, op, tool, batch).value, batch, rows)
    ensures rows != [] ==> (AnyVanished(rows) <==> MovesEmptyFile(s.disk, op))
    ensures forall k | 0 <= k < |rows| :: About(op, rows[k].path)
  {
    match op
    case Edit(path, change) =>
      var item := PrepareEdit(c, s, path, change, true).value;
      if item.noop {
        rows := [];
        assert s.rows + rows == s.rows;
      } else {
        CommittedDid(c, s, item, tool, batch);
        rows := [Row(|s.rows| + 1, c.session, batch, item.path, tool, item.before, Some(item.after))];
      }
    case Create(path, change, sibling) =>
      var item := PrepareCreate(c, s, path, change, sibling).value;
      CommittedDid(c, s, item, tool, batch);
      rows := [Row(|s.rows| + 1, c.session, batch, item.path, tool, item.before, Some(item.after))];
    case Delete(path) =>
      DeletedDid(c, s, path, batch);
      rows := [Row(|s.rows| + 1, c.session, batch, path, DeletePath, Content(s.disk, path), None)];
      assert Vanished(rows[0]) <==> MovesEmptyFile(s.disk, op);
    case Rename(path, to) =>
      RenamedDid(c, s, path, to, batch);
      rows := RenameRows(c, s, path, to, batch);
      assert Vanished(rows[1]) <==> MovesEmptyFile(s.disk, op);
    case Several(changes) =>
      SeveralDid(c, s, changes, tool, batch);
      var landed := Landed(PrepareAll(c, s, changes).value, _ => false);
      rows := RowsOf(c, landed, |s.rows| + 1, tool, batch);
      PreparedDescribes(c, s, changes);
      forall k | 0 <= k < |rows| ensures About(op, rows[k].path) {
        assert landed[k] in PrepareAll(c, s, changes).value;
      }
  }

  /** Undo brings back the disk from before any operation that recorded something, exactly unless the
      operation deleted or renamed an empty file. */
  lemma {:induction false} UndoOperationIff(c: Context, s: State, op: Operation, tool: Tool, batch: string, undo: string)
    requires c.journaling && tool.EditTool? && Covered(s.disk, op) && Perform(c, s, op, tool, batch).Success?
    requires batch != "" && Unused(s.rows, batch) && Perform(c, s, op, tool, batch).value.rows != s.rows
    ensures var (u, error) := Undone(c, Perform(c, s, op, tool, batch).value, undo);
            error == None && (u.disk == s.disk <==> !MovesEmptyFile(s.disk, op))
  {
    var t := Perform(c, s, op, tool, batch).value;
    var rows := PerformedDid(c, s, op, tool, batch);
    assert s.rows + [] == s.rows;
    NewBatchIsLast(s.rows, rows, c.session, batch);
    UndoRestoresIff(c, s.disk, t, rows, undo);
  }

  /** A second undo always applies the operation again. */
  lemma {:induction false} UndoTwiceReapplies(c: Context, s: State, op: Operation, tool: Tool, batch: string, undo: string, again: string)
    requires c.journaling && tool.EditTool? && Covered(s.disk, op) && Perform(c, s, op, tool, batch).Success?
    requires batch != "" && Unused(s.rows, batch) && Perform(c, s, op, tool, batch).value.rows != s.rows
    requires undo != "" && undo != batch && Unused(s.rows, undo) && PathsApart(op) && TreeLike(s.disk)
    ensures var t := Perform(c, s, op, tool, batch).value;
            var (u, error) := Undone(c, Undone(c, t, undo).0, again);
            error == None && u.disk == t.disk
  {
    var t := Perform(c, s, op, tool, batch).value;
    var rows := PerformedDid(c, s, op, tool, batch);
    assert s.rows + [] == s.rows;
    NewBatchIsLast(s.rows, rows, c.session, batch);
    SecondUndoReapplies(c, s.disk, t, rows, undo, again);
  }
}
