/**
 The write funnel of runtime/tools/edits.py: single edits, creation, deletion, renaming, several files at
 once with rollback, and undo. None of these awaits, so each is one step.
 */
module WriteFunnel {
  import opened FileId
  import opened Journals
  import opened Sequences
  import opened Wrappers

  const ROLLBACK_LOOKBACK := 50

  datatype Node = File(data: Data) | Dir

  type Disk = map<Path, Node>

  /** Digests as `FileTracker` keeps them: the content digested, or None for the empty string that marks
      a deleted file. */
  type Digests = map<Path, Option<Data>>

  /** What one agent's tool context adds: its session, whether it has a journal and a tracker, and which
      paths the guards let it write. */
  datatype Context = Context(session: string, journaling: bool, tracking: bool, writable: Path -> bool)

  datatype State = State(disk: Disk, rows: seq<Row>, digests: Digests)

  datatype EditError =
    | NotWritable | NotFound | NotAFile | BadEncoding | NeverRead | ChangedOnDisk | EditRejected
    | GateRefused | AlreadyExists | DirectoryNotEmpty | DiskFailure

  function Content(disk: Disk, path: Path): Option<Data> {
    if path in disk && disk[path].File? then Some(disk[path].data) else None
  }

  function Recorded(c: Context, rows: seq<Row>, batch: string, path: Path, tool: Tool, before: Option<Data>, after: Option<Data>)
    : seq<Row>
  {
    if c.journaling then rows + [Row(|rows| + 1, c.session, batch, path, tool, before, after)] else rows
  }

  function Marked(c: Context, digests: Digests, path: Path, digest: Option<Data>): Digests {
    if c.tracking then digests[path := digest] else digests
  }

  /****** Preparing and committing one file ******/

  datatype Prepared = Prepared(path: Path, before: Option<Data>, after: Data, noop: bool)

  /** The change asked for and the syntax and binding gates: parameters, as is what a new file copies
      from a sibling. */
  datatype Change = Change(mutate: Source -> Option<string>, accept: (Path, string) -> bool)

  function Stale(c: Context, digests: Digests, path: Path, data: Data): Option<EditError> {
    if !c.tracking then None
    else if path !in digests then Some(NeverRead)
    else if digests[path] != Some(data) then Some(ChangedOnDisk)
    else None
  }

  function PrepareEdit(c: Context, s: State, path: Path, change: Change, checkStale: bool): Result<Prepared, EditError> {
    if !c.writable(path) then Failure(NotWritable)
    else if path !in s.disk then Failure(NotFound)
    else if s.disk[path].Dir? then Failure(NotAFile)
    else
      var data := s.disk[path].data;
      var decoded := Decode(data);
      if decoded.Failure? then Failure(BadEncoding)
      else if checkStale && Stale(c, s.digests, path, data).Some? then Failure(Stale(c, s.digests, path, data).value)
      else
        var src := decoded.value;
        var text := change.mutate(src);
        if text.None? then Failure(EditRejected)
        else if text.value == src.text then Success(Prepared(path, Some(data), data, true))
        else if !change.accept(path, text.value) then Failure(GateRefused)
        else Success(Prepared(path, Some(data), Utf8(Render(src, text.value)), false))
  }

  /** The text a file may keep of an edit: one newline at the end if the file had one, at most one less than
      asked for otherwise. */
  function Settled(src: Source, text: string): string {
    var t := Normalize(text);
    if src.trailing then if t != "" && t[|t| - 1] == '\n' then t else t + "\n"
    else if t != "" && t[|t| - 1] == '\n' then t[..|t| - 1] else t
  }

  /** The bytes hold the text asked for, as a file like the source: read again they give that text and the
      same mark, unless a mark is made up from a leading U+FEFF; the newline style is that of the source
      while a newline is left; and there is one style. */
  ghost predicate Rewritten(src: Source, text: string, chars: string) {
    var want, again := Settled(src, text), DecodeChars(chars);
    && (again.text == want && again.bom == src.bom <==> src.bom || want == "" || want[0] != '\U{FEFF}')
    && again.newline == (if exists k :: 0 <= k < |want| && want[k] == '\n' then src.newline else Lf)
    && OneStyle(chars)
  }

  lemma {:induction false} RenderMeans(src: Source, text: string)
    ensures Rewritten(src, text, Render(src, text))
  {
    RereadIff(src, text);
    StyleSurvives(src, text);
    assert Settled(src, text) == Adjust(src.trailing, Normalize(text));
  }

  /** Why an edit is refused, the first reason first. */
  ghost predicate EditRefused(c: Context, s: State, path: Path, change: Change, checkStale: bool, error: EditError) {
    if !c.writable(path) then error == NotWritable
    else if path !in s.disk then error == NotFound
    else if s.disk[path].Dir? then error == NotAFile
    else if s.disk[path].data.Malformed? then error == BadEncoding
    else
      var data := s.disk[path].data;
      var src := DecodeChars(data.chars);
      if checkStale && c.tracking && path !in s.digests then error == NeverRead
      else if checkStale && c.tracking && s.digests[path] != Some(data) then error == ChangedOnDisk
      else if change.mutate(src).None? then error == EditRejected
      else change.mutate(src).value != src.text && !change.accept(path, change.mutate(src).value) && error == GateRefused
  }

  /** What an edit that is not refused does: nothing if the text is to stay as it is, otherwise the bytes of
      the new text. */
  ghost predicate EditPrepared(c: Context, s: State, path: Path, change: Change, checkStale: bool, item: Prepared) {
    && c.writable(path) && Content(s.disk, path).Some? && Content(s.disk, path).value.Utf8?
    && (checkStale && c.tracking ==> path in s.digests && s.digests[path] == Content(s.disk, path))
    && var src := DecodeChars(Content(s.disk, path).value.chars);
       var text := change.mutate(src);
       && text.Some? && item.path == path && item.before == Content(s.disk, path)
       && (item.noop <==> text.value == src.text)
       && (!item.noop ==> change.accept(path, text.value) && item.after.Utf8? && Rewritten(src, text.value, item.after.chars))
  }

  lemma {:induction false} PrepareEditMeans(c: Context, s: State, path: Path, change: Change, checkStale: bool)
    ensures match PrepareEdit(c, s, path, change, checkStale)
            case Success(item) => EditPrepared(c, s, path, change, checkStale, item)
            case Failure(error) => EditRefused(c, s, path, change, checkStale, error)
  {
    if path in s.disk && s.disk[path].File? && s.disk[path].data.Utf8? {
      var src := DecodeChars(s.disk[path].data.chars);
      if change.mutate(src).Some? { RenderMeans(src, change.mutate(src).value); }
    }
  }

  /** The same for a new file, which takes after a sibling. */
  ghost predicate CreatePrepared(c: Context, s: State, path: Path, change: Change, sibling: Source, item: Prepared) {
    && c.writable(path) && path !in s.disk
    && var text := change.mutate(sibling.(text := ""));
       && text.Some? && change.accept(path, text.value) && item.path == path && item.before == None && !item.noop
       && item.after.Utf8? && Rewritten(sibling, text.value, item.after.chars)
  }

  ghost predicate CreateRefused(c: Context, s: State, path: Path, change: Change, sibling: Source, error: EditError) {
    if !c.writable(path) then error == NotWritable
    else if path in s.disk then error == AlreadyExists
    else
      var text := change.mutate(sibling.(text := ""));
      if text.None? then error == EditRejected else !change.accept(path, text.value) && error == GateRefused
  }

  lemma {:induction false} PrepareCreateMeans(c: Context, s: State, path: Path, change: Change, sibling: Source)
    ensures match PrepareCreate(c, s, path, change, sibling)
            case Success(item) => CreatePrepared(c, s, path, change, sibling, item)
            case Failure(error) => CreateRefused(c, s, path, change, sibling, error)
  {
    var src := sibling.(text := "");
    if change.mutate(src).Some? {
      var text := change.mutate(src).value;
      RenderMeans(src, text);
      assert Render(src, text) == Render(sibling, text) && Settled(src, text) == Settled(sibling, text);
    }
  }

  function PrepareCreate(c: Context, s: State, path: Path, change: Change, sibling: Source): Result<Prepared, EditError> {
    if !c.writable(path) then Failure(NotWritable)
    else if path in s.disk then Failure(AlreadyExists)
    else
      var src := sibling.(text := "");
      var text := change.mutate(src);
      if text.None? then Failure(EditRejected)
      else if !change.accept(path, text.value) then Failure(GateRefused)
      else Success(Prepared(path, None, Utf8(Render(src, text.value)), false))
  }

  /** The state after a commit that did not fail. */
  function Committed(c: Context, s: State, item: Prepared, tool: Tool, batch: string): State {
    if item.noop then s
    else State(s.disk[item.path := File(item.after)],
               Recorded(c, s.rows, batch, item.path, tool, item.before, Some(item.after)),
               Marked(c, s.digests, item.path, Some(item.after)))
  }

  /****** Deleting and renaming files ******/

  predicate IsEmptyDir(disk: Disk, path: Path) {
    forall q | q in disk :: !(path + "/" <= q)
  }

  function Deleted(c: Context, s: State, path: Path, batch: string): Result<State, EditError> {
    if !c.writable(path) then Failure(NotWritable)
    else if path !in s.disk then Failure(NotFound)
    else if s.disk[path].Dir? && !IsEmptyDir(s.disk, path) then Failure(DirectoryNotEmpty)
    else
      var before := if s.disk[path].Dir? then Utf8("") else s.disk[path].data;
      Success(State(s.disk - {path},
                    Recorded(c, s.rows, batch, path, DeletePath, Some(before), None),
                    Marked(c, s.digests, path, None)))
  }

  /** Renaming a file is creating the copy, then removing the original; both are recorded. */
  function Renamed(c: Context, s: State, from: Path, to: Path, batch: string): Result<State, EditError>
  {
    if !c.writable(from) || !c.writable(to) then Failure(NotWritable)
    else if from !in s.disk then Failure(NotFound)
    else if to in s.disk then Failure(AlreadyExists)
    else if s.disk[from].Dir? then Failure(NotAFile)
    else
      var data := s.disk[from].data;
      var rows := Recorded(c, s.rows, batch, to, RenamePath, None, Some(data));
      Success(State(s.disk[to := File(data)] - {from},
                    Recorded(c, rows, batch, from, RenamePath, Some(data), None),
                    Marked(c, Marked(c, s.digests, to, Some(data)), from, None)))
  }

  /****** Undo ******/

  datatype UndoError = NoJournal | NothingToUndo | Refused(path: Path) | Interrupted(path: Path)

  /** Whether the file is still as the edit left it. */
  predicate StillThere(disk: Disk, r: Row) {
    if r.after.None? then r.path !in disk
    else if r.tool.Mkdir? || (r.path in disk && disk[r.path].Dir? && r.after == Some(Utf8(""))) then
      r.path in disk && disk[r.path].Dir?
    else Content(disk, r.path) == r.after
  }

  /** Deletions and renames of empty files are taken for directories. */
  predicate Vanished(r: Row) {
    (r.tool.DeletePath? || r.tool.RenamePath?) && r.before == Some(Utf8("")) && r.after.None?
  }

  /** The disk after one row is undone, or None when the write raises. */
  function UndoneDisk(disk: Disk, r: Row): Option<Disk> {
    if r.before.None? then
      if r.path in disk && disk[r.path].Dir? && !IsEmptyDir(disk, r.path) then Some(disk) else Some(disk - {r.path})
    else if r.after.None? then
      if Vanished(r) then
        if r.path in disk && disk[r.path].File? then None else Some(disk[r.path := Dir])
      else if r.path in disk then None
      else Some(disk[r.path := File(r.before.value)])
    else if Content(disk, r.path).None? then None
    else Some(disk[r.path := File(r.before.value)])
  }

  function UndoBefore(disk: Disk, r: Row): Option<Data> {
    if r.before.None? || r.after.Some? then Content(disk, r.path) else None
  }

  /** Undoes the rows in the order given. */
  function UndoRows(c: Context, s: State, rows: seq<Row>, batch: string): (State, Option<Path>)
    decreases |rows|
  {
    if rows == [] then (s, None)
    else
      var r := rows[0];
      var disk := UndoneDisk(s.disk, r);
      if disk.None? then (s, Some(r.path))
      else UndoRows(c, State(disk.value,
                             Recorded(c, s.rows, batch, r.path, UndoEdit, UndoBefore(s.disk, r), r.before),
                             Marked(c, s.digests, r.path, r.before)), rows[1..], batch)
  }

  /** The path of the first row that is not as the edit left it. */
  function FirstChanged(disk: Disk, rows: seq<Row>): Option<Path> {
    if rows == [] then None
    else if !StillThere(disk, rows[0]) then Some(rows[0].path)
    else FirstChanged(disk, rows[1..])
  }

  function Undone(c: Context, s: State, batch: string): (State, Option<UndoError>) {
    if !c.journaling then (s, Some(NoJournal))
    else
      var last := Reversed(LastBatch(s.rows, c.session));
      if last == [] then (s, Some(NothingToUndo))
      else if FirstChanged(s.disk, last).Some? then (s, Some(Refused(FirstChanged(s.disk, last).value)))
      else
        var (t, stopped) := UndoRows(c, s, last, batch);
        (t, if stopped.Some? then Some(Interrupted(stopped.value)) else None)
  }

  /****** Several files at once ******/

  function PrepareAll(c: Context, s: State, changes: seq<(Path, Change)>): Result<seq<Prepared>, EditError> {
    if changes == [] then Success([])
    else
      var item := PrepareEdit(c, s, changes[0].0, changes[0].1, false);
      if item.Failure? then Failure(item.error)
      else
        var rest := PrepareAll(c, s, changes[1..]);
        if rest.Failure? then rest else Success([item.value] + rest.value)
  }

  ghost function After(items: seq<Prepared>, rest: Result<seq<Prepared>, EditError>): Result<seq<Prepared>, EditError> {
    if rest.Failure? then rest else Success(items + rest.value)
  }

  lemma {:induction false} PrepareNext(c: Context, s: State, changes: seq<(Path, Change)>, k: nat, items: seq<Prepared>)
    requires k < |changes|
    ensures var item := PrepareEdit(c, s, changes[k].0, changes[k].1, false);
            After(items, PrepareAll(c, s, changes[k..])) ==
            if item.Failure? then Failure(item.error) else After(items + [item.value], PrepareAll(c, s, changes[k + 1..]))
  {
    assert changes[k..][1..] == changes[k + 1..];
    var item, rest := PrepareEdit(c, s, changes[k].0, changes[k].1, false), PrepareAll(c, s, changes[k + 1..]);
    if item.Success? && rest.Success? { assert items + ([item.value] + rest.value) == items + [item.value] + rest.value; }
  }

  ghost predicate FirstRefused(c: Context, s: State, changes: seq<(Path, Change)>, k: nat, error: EditError) {
    && k < |changes| && EditRefused(c, s, changes[k].0, changes[k].1, false, error)
    && forall j | 0 <= j < k :: Preparable(c, s, changes[j].0, changes[j].1)
  }

  ghost predicate Preparable(c: Context, s: State, path: Path, change: Change) {
    exists item :: EditPrepared(c, s, path, change, false, item)
  }

  lemma {:induction false} FirstRefusedNext(c: Context, s: State, changes: seq<(Path, Change)>, k: nat, error: EditError, item: Prepared)
    requires changes != [] && FirstRefused(c, s, changes[1..], k, error)
    requires EditPrepared(c, s, changes[0].0, changes[0].1, false, item)
    ensures FirstRefused(c, s, changes, k + 1, error)
  {
    assert Preparable(c, s, changes[0].0, changes[0].1);
    forall j | 0 <= j < k + 1 ensures Preparable(c, s, changes[j].0, changes[j].1) {
      if j > 0 { assert changes[j] == changes[1..][j - 1]; }
    }
  }

  lemma {:induction false} FirstOfAll(c: Context, s: State, changes: seq<(Path, Change)>, error: EditError) returns (k: nat)
    requires PrepareAll(c, s, changes) == Failure(error)
    ensures FirstRefused(c, s, changes, k, error)
  {
    var first := PrepareEdit(c, s, changes[0].0, changes[0].1, false);
    PrepareEditMeans(c, s, changes[0].0, changes[0].1, false);
    if first.Failure? {
      k := 0;
    } else {
      var n := FirstOfAll(c, s, changes[1..], error);
      FirstRefusedNext(c, s, changes, n, error, first.value);
      k := n + 1;
    }
  }

  lemma {:induction false} AllArePrepared(c: Context, s: State, changes: seq<(Path, Change)>, items: seq<Prepared>)
    requires PrepareAll(c, s, changes) == Success(items)
    ensures |items| == |changes|
    ensures forall k | 0 <= k < |items| :: EditPrepared(c, s, changes[k].0, changes[k].1, false, items[k])
  {
    if changes != [] {
      PrepareEditMeans(c, s, changes[0].0, changes[0].1, false);
      AllArePrepared(c, s, changes[1..], items[1..]);
    }
  }

  /** All files are prepared, or the first that is refused gives the error. */
  lemma {:induction false} PrepareAllMeans(c: Context, s: State, changes: seq<(Path, Change)>)
    ensures match PrepareAll(c, s, changes)
            case Success(items) =>
              |items| == |changes| && forall k | 0 <= k < |items| :: EditPrepared(c, s, changes[k].0, changes[k].1, false, items[k])
            case Failure(error) => exists k: nat :: FirstRefused(c, s, changes, k, error)
  {
    match PrepareAll(c, s, changes)
    case Success(items) => AllArePrepared(c, s, changes, items);
    case Failure(error) => var k := FirstOfAll(c, s, changes, error);
  }

  /** What `_commit` returns of use to the rollback. */
  datatype Outcome = Outcome(path: Path, editId: Option<nat>)

  /** Commits in order until the write of a file fails. */
  function CommitAll(c: Context, s: State, items: seq<Prepared>, tool: Tool, batch: string, fails: Path -> bool)
    : (State, seq<Outcome>, bool)
    decreases |items|
  {
    if items == [] then (s, [], true)
    else if !items[0].noop && fails(items[0].path) then (s, [], false)
    else
      var (t, rest, ok) := CommitAll(c, Committed(c, s, items[0], tool, batch), items[1..], tool, batch, fails);
      (t, [Outcome(items[0].path, EditId(c, s, items[0]))] + rest, ok)
  }

  ghost function Prepend(outcomes: seq<Outcome>, r: (State, seq<Outcome>, bool)): (State, seq<Outcome>, bool) {
    (r.0, outcomes + r.1, r.2)
  }

  function EditId(c: Context, s: State, item: Prepared): Option<nat> {
    if item.noop || !c.journaling then None else Some(|s.rows| + 1)
  }

  lemma {:induction false} CommitNext(c: Context, s: State, items: seq<Prepared>, k: nat, tool: Tool, batch: string,
                                      fails: Path -> bool, outcomes: seq<Outcome>)
    requires k < |items| && (items[k].noop || !fails(items[k].path))
    ensures Prepend(outcomes, CommitAll(c, s, items[k..], tool, batch, fails))
         == Prepend(outcomes + [Outcome(items[k].path, EditId(c, s, items[k]))],
                    CommitAll(c, Committed(c, s, items[k], tool, batch), items[k + 1..], tool, batch, fails))
  {
    assert items[k..][1..] == items[k + 1..];
    var o := Outcome(items[k].path, EditId(c, s, items[k]));
    var rest := CommitAll(c, Committed(c, s, items[k], tool, batch), items[k + 1..], tool, batch, fails).1;
    assert outcomes + ([o] + rest) == outcomes + [o] + rest;
  }

  function FindRow(rows: seq<Row>, id: nat): Option<Row> {
    if rows == [] then None else if rows[0].id == id then Some(rows[0]) else FindRow(rows[1..], id)
  }

  /** One file of the rollback: nothing happens without a recent journal row, or if the write fails. */
  function Restored(c: Context, s: State, o: Outcome, stuck: Path -> bool): State {
    if o.editId.None? || !c.journaling then s
    else
      var r := FindRow(Recent(s.rows, c.session, ROLLBACK_LOOKBACK), o.editId.value);
      if r.None? || stuck(r.value.path) then s
      else if r.value.before.None? then s.(disk := s.disk - {r.value.path})
      else s.(disk := s.disk[r.value.path := File(r.value.before.value)])
  }

  /** Newest first. */
  function RolledBack(c: Context, s: State, outcomes: seq<Outcome>, stuck: Path -> bool): State
    decreases |outcomes|
  {
    if outcomes == [] then s
    else RolledBack(c, Restored(c, s, outcomes[|outcomes| - 1], stuck), outcomes[..|outcomes| - 1], stuck)
  }

  function AppliedAll(c: Context, s: State, changes: seq<(Path, Change)>, tool: Tool, batch: string,
                      fails: Path -> bool, stuck: Path -> bool): (State, Option<EditError>)
  {
    var items := PrepareAll(c, s, changes);
    if items.Failure? then (s, Some(items.error))
    else
      var (t, outcomes, ok) := CommitAll(c, s, items.value, tool, batch, fails);
      if ok then (t, None) else (RolledBack(c, t, outcomes, stuck), Some(DiskFailure))
  }

  /****** The classes ******/

  class FileTracker {
    var digests: Digests

    constructor ()
      ensures digests == map[]
    {
      digests := map[];
    }

    method Mark(path: Path, digest: Option<Data>)
      modifies this
      ensures digests == old(digests)[path := digest]
    {
      digests := digests[path := digest];
    }

    method Get(path: Path) returns (digest: Option<Option<Data>>)
      ensures digest.Some? <==> path in digests
      ensures digest.Some? ==> digest.value == digests[path]
    {
      digest := if path in digests then Some(digests[path]) else None;
    }
  }

  class Funnel {
    const session: string
    const writable: Path -> bool
    const journal: Journal?
    const files: FileTracker?
    var disk: Disk

    ghost predicate Valid()
      reads this, journal
    {
      journal != null ==> journal.Valid()
    }

    function Env(): Context {
      Context(session, journal != null, files != null, writable)
    }

    function Now(): State
      reads this, journal, files
    {
      State(disk, if journal != null then journal.rows else [], if files != null then files.digests else map[])
    }

    constructor (session: string, writable: Path -> bool, journal: Journal?, files: FileTracker?, disk: Disk)
      requires journal != null ==> journal.Valid()
      ensures Valid() && this.disk == disk && Env() == Context(session, journal != null, files != null, writable)
    {
      this.session, this.writable, this.journal, this.files, this.disk := session, writable, journal, files, disk;
    }

    method Note(batch: string, path: Path, tool: Tool, before: Option<Data>, after: Option<Data>) returns (id: Option<nat>)
      requires Valid()
      modifies journal
      ensures Valid() && Now() == old(Now()).(rows := Recorded(Env(), old(Now()).rows, batch, path, tool, before, after))
      ensures id == if journal == null then None else Some(|old(Now()).rows| + 1)
    {
      id := None;
      if journal != null {
        var row := journal.Record(session, batch, path, tool, before, after);
        id := Some(row);
      }
    }

    method MarkFile(path: Path, digest: Option<Data>)
      requires Valid()
      modifies files
      ensures Valid() && Now() == old(Now()).(digests := Marked(Env(), old(Now()).digests, path, digest))
    {
      if files != null { files.Mark(path, digest); }
    }

    method Commit(item: Prepared, tool: Tool, batch: string) returns (id: Option<nat>)
      requires Valid()
      modifies `disk, journal, files
      ensures Valid() && Now() == Committed(Env(), old(Now()), item, tool, batch)
      ensures id == if item.noop || journal == null then None else Some(|old(Now()).rows| + 1)
    {
      if item.noop { return None; }
      disk := disk[item.path := File(item.after)];
      id := Note(batch, item.path, tool, item.before, Some(item.after));
      MarkFile(item.path, Some(item.after));
    }

    /** A single edit, or a creation when `sibling` is given; on any error nothing has changed. */
    method ApplyEdit(path: Path, change: Change, sibling: Option<Source>, tool: Tool, batch: string, fails: bool)
      returns (error: Option<EditError>)
      requires Valid()
      modifies `disk, journal, files
      ensures Valid()
      ensures var item := if sibling.Some? then PrepareCreate(Env(), old(Now()), path, change, sibling.value)
                          else PrepareEdit(Env(), old(Now()), path, change, true);
              if item.Failure? then error == Some(item.error) && Now() == old(Now())
              else if fails && !item.value.noop then error == Some(DiskFailure) && Now() == old(Now())
              else error == None && Now() == Committed(Env(), old(Now()), item.value, tool, batch)
      ensures error == None && sibling.None? ==>
                exists item :: EditPrepared(Env(), old(Now()), path, change, true, item)
                               && disk == if item.noop then old(disk) else old(disk)[path := File(item.after)]
      ensures error == None && sibling.Some? ==>
                exists item :: CreatePrepared(Env(), old(Now()), path, change, sibling.value, item)
                               && disk == old(disk)[path := File(item.after)]
      ensures error.Some? ==>
                || (fails && error == Some(DiskFailure))
                || (if sibling.Some? then CreateRefused(Env(), old(Now()), path, change, sibling.value, error.value)
                    else EditRefused(Env(), old(Now()), path, change, true, error.value))
    {
      PrepareEditMeans(Env(), Now(), path, change, true);
      if sibling.Some? { PrepareCreateMeans(Env(), Now(), path, change, sibling.value); }
      var item := if sibling.Some? then PrepareCreate(Env(), Now(), path, change, sibling.value)
                  else PrepareEdit(Env(), Now(), path, change, true);
      if item.Failure? { return Some(item.error); }
      if fails && !item.value.noop { return Some(DiskFailure); }
      var _ := Commit(item.value, tool, batch);
      return None;
    }

    method DeleteFile(path: Path, batch: string) returns (error: Option<EditError>)
      requires Valid()
      modifies `disk, journal, files
      ensures Valid()
      ensures var r := Deleted(Env(), old(Now()), path, batch);
              if r.Failure? then error == Some(r.error) && Now() == old(Now()) else error == None && Now() == r.value
    {
      if !writable(path) { return Some(NotWritable); }
      if path !in disk { return Some(NotFound); }
      var before := Utf8("");
      if disk[path].Dir? {
        if !IsEmptyDir(disk, path) { return Some(DirectoryNotEmpty); }
      } else {
        before := disk[path].data;
      }
      disk := disk - {path};
      var _ := Note(batch, path, DeletePath, Some(before), None);
      MarkFile(path, None);
      return None;
    }

    method RenameFile(from: Path, to: Path, batch: string) returns (error: Option<EditError>)
      requires Valid()
      modifies `disk, journal, files
      ensures Valid()
      ensures var r := Renamed(Env(), old(Now()), from, to, batch);
              if r.Failure? then error == Some(r.error) && Now() == old(Now()) else error == None && Now() == r.value
    {
      if !writable(from) || !writable(to) { return Some(NotWritable); }
      if from !in disk { return Some(NotFound); }
      if to in disk { return Some(AlreadyExists); }
      if disk[from].Dir? { return Some(NotAFile); }
      var data := disk[from].data;
      disk := disk[to := File(data)];
      disk := disk - {from};
      var _ := Note(batch, to, RenamePath, None, Some(data));
      var _ := Note(batch, from, RenamePath, Some(data), None);
      MarkFile(to, Some(data));
      MarkFile(from, None);
      return None;
    }

    /** All checks come before all writes, so a refusal changes nothing. */
    method UndoLast(batch: string) returns (error: Option<UndoError>)
      requires Valid()
      modifies `disk, journal, files
      ensures Valid() && (Now(), error) == Undone(Env(), old(Now()), batch)
      ensures error.Some? && !error.value.Interrupted? ==> Now() == old(Now())
    {
      if journal == null { return Some(NoJournal); }
      var rows := journal.LastBatchRows(session);
      if rows == [] { return Some(NothingToUndo); }
      var last := Reversed(rows);
      var changed := CheckRows(last);
      if changed.Some? { return Some(Refused(changed.value)); }
      var stopped := UndoEach(last, batch);
      return if stopped.Some? then Some(Interrupted(stopped.value)) else None;
    }

    method CheckRows(rows: seq<Row>) returns (changed: Option<Path>)
      ensures changed == FirstChanged(disk, rows)
    {
      assert rows[0..] == rows;
      for k := 0 to |rows|
        invariant FirstChanged(disk, rows) == FirstChanged(disk, rows[k..])
      {
        assert rows[k..][1..] == rows[k + 1..];
        if !StillThere(disk, rows[k]) { return Some(rows[k].path); }
      }
      assert rows[|rows|..] == [];
      return None;
    }

    method UndoEach(rows: seq<Row>, batch: string) returns (stopped: Option<Path>)
      requires Valid()
      modifies `disk, journal, files
      ensures Valid() && (Now(), stopped) == UndoRows(Env(), old(Now()), rows, batch)
    {
      assert rows[0..] == rows;
      for k := 0 to |rows|
        invariant Valid()
        invariant UndoRows(Env(), Now(), rows[k..], batch) == UndoRows(Env(), old(Now()), rows, batch)
      {
        assert rows[k..][1..] == rows[k + 1..];
        var ok := UndoOne(rows[k], batch);
        if !ok { return Some(rows[k].path); }
      }
      assert rows[|rows|..] == [];
      return None;
    }

    method UndoOne(r: Row, batch: string) returns (ok: bool)
      requires Valid()
      modifies `disk, journal, files
      ensures Valid()
      ensures var after := UndoneDisk(old(disk), r);
              if after.None? then !ok && Now() == old(Now())
              else ok && Now() == State(after.value,
                                        Recorded(Env(), old(Now()).rows, batch, r.path, UndoEdit, UndoBefore(old(disk), r), r.before),
                                        Marked(Env(), old(Now()).digests, r.path, r.before))
    {
      var before := UndoBefore(disk, r);
      var after := UndoneDisk(disk, r);
      if after.None? { return false; }
      disk := after.value;
      var _ := Note(batch, r.path, UndoEdit, before, r.before);
      MarkFile(r.path, r.before);
      return true;
    }

    method ApplyWorkspace(changes: seq<(Path, Change)>, tool: Tool, batch: string, fails: Path -> bool, stuck: Path -> bool)
      returns (error: Option<EditError>)
      requires Valid()
      modifies `disk, journal, files
      ensures Valid() && (Now(), error) == AppliedAll(Env(), old(Now()), changes, tool, batch, fails, stuck)
    {
      var items := PrepareEach(changes);
      if items.Failure? { return Some(items.error); }
      var outcomes, ok := CommitEach(items.value, tool, batch, fails);
      if ok { return None; }
      RollBack(outcomes, stuck);
      return Some(DiskFailure);
    }

    method PrepareEach(changes: seq<(Path, Change)>) returns (r: Result<seq<Prepared>, EditError>)
      ensures r == PrepareAll(Env(), Now(), changes)
    {
      var items: seq<Prepared> := [];
      ghost var goal := PrepareAll(Env(), Now(), changes);
      assert changes[0..] == changes && (goal.Success? ==> items + goal.value == goal.value);
      for k := 0 to |changes|
        invariant After(items, PrepareAll(Env(), Now(), changes[k..])) == goal
      {
        var item := PrepareEdit(Env(), Now(), changes[k].0, changes[k].1, false);
        PrepareNext(Env(), Now(), changes, k, items);
        if item.Failure? { return Failure(item.error); }
        items := items + [item.value];
      }
      assert changes[|changes|..] == [] && items + [] == items;
      return Success(items);
    }

    method CommitEach(items: seq<Prepared>, tool: Tool, batch: string, fails: Path -> bool)
      returns (outcomes: seq<Outcome>, ok: bool)
      requires Valid()
      modifies `disk, journal, files
      ensures Valid() && (Now(), outcomes, ok) == CommitAll(Env(), old(Now()), items, tool, batch, fails)
    {
      outcomes := [];
      ghost var goal := CommitAll(Env(), Now(), items, tool, batch, fails);
      assert items[0..] == items && outcomes + goal.1 == goal.1;
      for k := 0 to |items|
        invariant Valid()
        invariant Prepend(outcomes, CommitAll(Env(), Now(), items[k..], tool, batch, fails)) == goal
      {
        if !items[k].noop && fails(items[k].path) {
          assert outcomes + [] == outcomes;
          return outcomes, false;
        }
        CommitNext(Env(), Now(), items, k, tool, batch, fails, outcomes);
        var id := Commit(items[k], tool, batch);
        outcomes := outcomes + [Outcome(items[k].path, id)];
      }
      assert items[|items|..] == [] && outcomes + [] == outcomes;
      return outcomes, true;
    }

    method RollBack(outcomes: seq<Outcome>, stuck: Path -> bool)
      requires Valid()
      modifies `disk
      ensures Valid() && Now() == RolledBack(Env(), old(Now()), outcomes, stuck)
    {
      var k := |outcomes|;
      assert outcomes[..k] == outcomes;
      while k > 0
        invariant k <= |outcomes| && Valid()
        invariant RolledBack(Env(), Now(), outcomes[..k], stuck) == RolledBack(Env(), old(Now()), outcomes, stuck)
      {
        k := k - 1;
        assert outcomes[..k + 1][..k] == outcomes[..k];
        RestoreOne(outcomes[k], stuck);
      }
    }

    method RestoreOne(o: Outcome, stuck: Path -> bool)
      requires Valid()
      modifies `disk
      ensures Valid() && Now() == Restored(Env(), old(Now()), o, stuck)
    {
      if o.editId.None? || journal == null { return; }
      var records := journal.RecentRows(session, ROLLBACK_LOOKBACK);
      var r := FindRow(records, o.editId.value);
      if r.None? || stuck(r.value.path) { return; }
      if r.value.before.None? {
        disk := disk - {r.value.path};
      } else {
        disk := disk[r.value.path := File(r.value.before.value)];
      }
    }
  }
}
