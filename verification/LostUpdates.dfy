/** Several agents edit one workspace, each with its own tracker: what an edit replaces is what the agent
    last read or wrote. */
module LostUpdates {
  import opened FileId
  import opened FunnelProofs
  import opened Journals
  import opened Operations
  import opened Sequences
  import opened UndoProofs
  import opened WriteFunnel
  import opened Wrappers

  type Agent = nat

  datatype Event =
    | Read(agent: Agent, path: Path)
    | Act(agent: Agent, op: Operation, tool: Tool, batch: string)
    | ActOnMany(agent: Agent, changes: seq<(Path, Change)>, tool: Tool, batch: string, fails: Path -> bool, stuck: Path -> bool)
    | Undo(agent: Agent, batch: string)
    | Outside(disk: Disk)

  /** One disk and one journal, and a tracker for each agent. */
  datatype Team = Team(disk: Disk, rows: seq<Row>, trackers: map<Agent, Digests>)

  function TrackerOf(t: Team, a: Agent): Digests {
    if a in t.trackers then t.trackers[a] else map[]
  }

  function View(t: Team, a: Agent): State {
    State(t.disk, t.rows, TrackerOf(t, a))
  }

  function Update(t: Team, a: Agent, s: State): Team {
    Team(s.disk, s.rows, t.trackers[a := s.digests])
  }

  predicate Readable(disk: Disk, path: Path) {
    Content(disk, path).Some? && Decode(Content(disk, path).value).Success?
  }

  /** What the event leaves the acting agent's state. */
  function Acted(c: Context, s: State, e: Event): State {
    match e
    case Read(_, path) =>
      if Readable(s.disk, path) then s.(digests := Marked(c, s.digests, path, Content(s.disk, path))) else s
    case Act(_, op, tool, batch) =>
      if op.Several? || Perform(c, s, op, tool, batch).Failure? then s else Perform(c, s, op, tool, batch).value
    case ActOnMany(_, changes, tool, batch, fails, stuck) => AppliedAll(c, s, changes, tool, batch, fails, stuck).0
    case Undo(_, batch) => Undone(c, s, batch).0
    case Outside(disk) => s.(disk := disk)
  }

  function Next(contexts: Agent -> Context, t: Team, e: Event): Team {
    if e.Outside? then t.(disk := e.disk) else Update(t, e.agent, Acted(contexts(e.agent), View(t, e.agent), e))
  }

  function Reached(contexts: Agent -> Context, start: Disk, events: seq<Event>): Team {
    if events == [] then Team(start, [], map[])
    else Next(contexts, Reached(contexts, start, events[..|events| - 1]), events[|events| - 1])
  }

  /****** What an agent last read or wrote ******/

  /** An empty directory stands for an empty file: undo makes no difference between them. */
  function AsLeft(disk: Disk, path: Path): Option<Data> {
    if path !in disk then None else if disk[path].Dir? then Some(Utf8("")) else Some(disk[path].data)
  }

  function LastWritten(landed: seq<Prepared>, path: Path): Option<Data> {
    if landed == [] then None
    else if LastWritten(landed[1..], path).Some? then LastWritten(landed[1..], path)
    else if landed[0].path == path then Some(landed[0].after)
    else None
  }

  /** The rows an undo gets through before a write raises. */
  function Processed(disk: Disk, rows: seq<Row>): seq<Row>
    decreases |rows|
  {
    if rows == [] || UndoneDisk(disk, rows[0]).None? then []
    else [rows[0]] + Processed(UndoneDisk(disk, rows[0]).value, rows[1..])
  }

  function UndoTargets(c: Context, s: State): seq<Row> {
    var last := Reversed(LastBatch(s.rows, c.session));
    if !c.journaling || FirstChanged(s.disk, last).Some? then [] else Processed(s.disk, last)
  }

  /** What the event read from or wrote to the path; None when it did neither. */
  ghost function Touch(c: Context, s: State, e: Event, path: Path): Option<Option<Data>> {
    match e
    case Read(_, p) => if p == path && Readable(s.disk, p) then Some(Content(s.disk, p)) else None
    case Act(_, op, tool, batch) =>
      if !op.Several? && Perform(c, s, op, tool, batch).Success? && About(op, path)
      then Some(AsLeft(Perform(c, s, op, tool, batch).value.disk, path)) else None
    case ActOnMany(_, changes, tool, batch, fails, stuck) =>
      var items := PrepareAll(c, s, changes);
      if items.Success? && LastWritten(Landed(items.value, fails), path).Some?
      then Some(LastWritten(Landed(items.value, fails), path)) else None
    case Undo(_, batch) =>
      if Mentions(UndoTargets(c, s), path) then Some(AsLeft(Undone(c, s, batch).0.disk, path)) else None
    case Outside(_) => None
  }

  /** The content the agent last read from or wrote to the path. */
  ghost function Known(contexts: Agent -> Context, start: Disk, events: seq<Event>, a: Agent, path: Path): Option<Data> {
    if events == [] then None
    else
      var front, e := events[..|events| - 1], events[|events| - 1];
      var t := Reached(contexts, start, front);
      if !e.Outside? && e.agent == a && Touch(contexts(a), View(t, a), e, path).Some?
      then Touch(contexts(a), View(t, a), e, path).value
      else Known(contexts, start, front, a, path)
  }

  /****** The tracker holds what was last touched ******/

  /** The tracker after the event says nothing false: a digest is of what the event touched, or was there
      before. */
  ghost predicate MarksTrue(c: Context, s: State, t: State, e: Event) {
    forall p, d | p in t.digests && t.digests[p] == Some(d) ::
      if Touch(c, s, e, p).Some? then Touch(c, s, e, p).value == Some(d)
      else p in s.digests && s.digests[p] == Some(d)
  }

  lemma {:induction false} ActMarks(c: Context, s: State, e: Event)
    requires c.tracking && e.Act? && !e.op.Several?
    ensures MarksTrue(c, s, Acted(c, s, e), e)
  {
    var op := e.op;
    if Perform(c, s, op, e.tool, e.batch).Success? {
      match op
      case Edit(path, change) =>
        assert Stale(c, s.digests, path, s.disk[path].data).None?;
      case Create(path, change, sibling) =>
      case Delete(path) =>
      case Rename(path, to) =>
    }
  }

  lemma {:induction false} CommitMarks(c: Context, s: State, items: seq<Prepared>, tool: Tool, batch: string, fails: Path -> bool)
    requires c.tracking
    ensures var t := CommitAll(c, s, items, tool, batch, fails).0;
            forall p :: if LastWritten(Landed(items, fails), p).Some?
                        then p in t.digests && t.digests[p] == LastWritten(Landed(items, fails), p)
                        else (p in t.digests <==> p in s.digests) && (p in s.digests ==> t.digests[p] == s.digests[p])
    decreases |items|
  {
    if items != [] && (items[0].noop || !fails(items[0].path)) {
      var rest := Landed(items[1..], fails);
      CommitMarks(c, Committed(c, s, items[0], tool, batch), items[1..], tool, batch, fails);
      if items[0].noop {
        assert [] + rest == rest;
      } else {
        assert ([items[0]] + rest)[1..] == rest;
      }
    }
  }

  lemma {:induction false} RollBackMarks(c: Context, s: State, outcomes: seq<Outcome>, stuck: Path -> bool)
    ensures RolledBack(c, s, outcomes, stuck).digests == s.digests
    decreases |outcomes|
  {
    if outcomes != [] {
      RollBackMarks(c, Restored(c, s, outcomes[|outcomes| - 1], stuck), outcomes[..|outcomes| - 1], stuck);
    }
  }

  lemma {:induction false} ManyMarks(c: Context, s: State, e: Event)
    requires c.tracking && e.ActOnMany?
    ensures MarksTrue(c, s, Acted(c, s, e), e)
  {
    var items := PrepareAll(c, s, e.changes);
    if items.Success? {
      CommitMarks(c, s, items.value, e.tool, e.batch, e.fails);
      var (t, outcomes, ok) := CommitAll(c, s, items.value, e.tool, e.batch, e.fails);
      RollBackMarks(c, t, outcomes, e.stuck);
    }
  }

  /** The digests an undo leaves: those of the rows it got through are of what stands there now. */
  ghost predicate UndoMarksTrue(s: State, t: State, rows: seq<Row>) {
    && (forall p | !Mentions(rows, p) :: NodeAt(t.disk, p) == NodeAt(s.disk, p)
                                         && (p in t.digests <==> p in s.digests) && (p in s.digests ==> t.digests[p] == s.digests[p]))
    && (forall p, d | Mentions(rows, p) && p in t.digests && t.digests[p] == Some(d) :: AsLeft(t.disk, p) == Some(d))
  }

  lemma {:induction false} UndoOneMarks(c: Context, s: State, r: Row, batch: string)
    requires c.tracking && UndoneDisk(s.disk, r).Some?
    ensures UndoMarksTrue(s, AfterRow(c, s, r, UndoneDisk(s.disk, r).value, batch), [r])
  {
    var t := AfterRow(c, s, r, UndoneDisk(s.disk, r).value, batch);
    forall p | !Mentions([r], p)
      ensures NodeAt(t.disk, p) == NodeAt(s.disk, p) && (p in t.digests <==> p in s.digests) && (p in s.digests ==> t.digests[p] == s.digests[p])
    {
      assert [r][0].path != p;
    }
  }

  lemma {:induction false} UndoMarksChain(s: State, m: State, t: State, r: Row, rest: seq<Row>)
    requires UndoMarksTrue(s, m, [r]) && UndoMarksTrue(m, t, rest)
    ensures UndoMarksTrue(s, t, [r] + rest)
  {
    forall p ensures Mentions([r] + rest, p) <==> p == r.path || Mentions(rest, p) {
      if Mentions(rest, p) { var k :| 0 <= k < |rest| && rest[k].path == p; assert ([r] + rest)[k + 1].path == p; }
      if p == r.path { assert ([r] + rest)[0].path == p; }
    }
    assert forall p :: Mentions([r], p) <==> p == r.path by { assert [r][0].path == r.path; }
    forall p, d | Mentions([r] + rest, p) && p in t.digests && t.digests[p] == Some(d) ensures AsLeft(t.disk, p) == Some(d) {
      if !Mentions(rest, p) { assert NodeAt(t.disk, p) == NodeAt(m.disk, p); }
    }
  }

  lemma {:induction false} UndoRowsMarks(c: Context, s: State, rows: seq<Row>, batch: string)
    requires c.tracking
    ensures UndoMarksTrue(s, UndoRows(c, s, rows, batch).0, Processed(s.disk, rows))
    decreases |rows|
  {
    if rows != [] && UndoneDisk(s.disk, rows[0]).Some? {
      var next := AfterRow(c, s, rows[0], UndoneDisk(s.disk, rows[0]).value, batch);
      UndoOneMarks(c, s, rows[0], batch);
      UndoRowsMarks(c, next, rows[1..], batch);
      UndoMarksChain(s, next, UndoRows(c, s, rows, batch).0, rows[0], Processed(next.disk, rows[1..]));
    }
  }

  lemma {:induction false} UndoMarks(c: Context, s: State, e: Event)
    requires c.tracking && e.Undo?
    ensures MarksTrue(c, s, Acted(c, s, e), e)
  {
    var last := Reversed(LastBatch(s.rows, c.session));
    if c.journaling && FirstChanged(s.disk, last).None? {
      UndoRowsMarks(c, s, last, e.batch);
      var t := UndoRows(c, s, last, e.batch).0;
      if last == [] { assert Undone(c, s, e.batch).0 == s; } else { assert Undone(c, s, e.batch).0 == t; }
    }
  }

  lemma {:induction false} EventMarks(c: Context, s: State, e: Event)
    requires c.tracking && !e.Outside? && !(e.Act? && e.op.Several?)
    ensures MarksTrue(c, s, Acted(c, s, e), e)
  {
    match e
    case Read(_, _) =>
    case Act(_, _, _, _) => ActMarks(c, s, e);
    case ActOnMany(_, _, _, _, _, _) => ManyMarks(c, s, e);
    case Undo(_, _) => UndoMarks(c, s, e);
  }

  ghost predicate AllTracking(contexts: Agent -> Context) {
    forall a :: contexts(a).tracking
  }

  lemma {:induction false} EventMarksTeam(contexts: Agent -> Context, t: Team, e: Event, a: Agent, path: Path, d: Data)
    requires AllTracking(contexts)
    requires var digests := TrackerOf(Next(contexts, t, e), a); path in digests && digests[path] == Some(d)
    ensures if !e.Outside? && e.agent == a && Touch(contexts(a), View(t, a), e, path).Some?
            then Touch(contexts(a), View(t, a), e, path).value == Some(d)
            else path in TrackerOf(t, a) && TrackerOf(t, a)[path] == Some(d)
  {
    if !e.Outside? && e.agent == a {
      if e.Act? && e.op.Several? {
        assert Acted(contexts(a), View(t, a), e) == View(t, a);
      } else {
        EventMarks(contexts(a), View(t, a), e);
      }
    }
  }

  /** In every run, a digest in an agent's tracker is of the content that agent last read or wrote. */
  lemma {:induction false} TrackerIsKnowledge(contexts: Agent -> Context, start: Disk, events: seq<Event>, a: Agent, path: Path, d: Data)
    requires AllTracking(contexts)
    requires var digests := TrackerOf(Reached(contexts, start, events), a);
             path in digests && digests[path] == Some(d)
    ensures Known(contexts, start, events, a, path) == Some(d)
  {
    if events != [] {
      var front, e := events[..|events| - 1], events[|events| - 1];
      var t := Reached(contexts, start, front);
      EventMarksTeam(contexts, t, e, a, path, d);
      if e.Outside? || e.agent != a || Touch(contexts(a), View(t, a), e, path).None? {
        TrackerIsKnowledge(contexts, start, front, a, path, d);
      }
    }
  }

  /**
   No lost update, over every interleaving of agents and of outside changes: an edit that succeeds
   replaces exactly the content its agent last read or wrote there, and a creation replaces nothing.
   */
  lemma {:induction false} NoLostUpdate(contexts: Agent -> Context, start: Disk, events: seq<Event>, a: Agent, op: Operation, tool: Tool, batch: string)
    requires AllTracking(contexts)
    requires Perform(contexts(a), View(Reached(contexts, start, events), a), op, tool, batch).Success?
    ensures var disk := Reached(contexts, start, events).disk;
            && (op.Edit? ==> Content(disk, op.path).Some? && Content(disk, op.path) == Known(contexts, start, events, a, op.path))
            && (op.Create? ==> op.path !in disk)
  {
    if op.Edit? {
      var t := Reached(contexts, start, events);
      var data := t.disk[op.path].data;
      assert Stale(contexts(a), TrackerOf(t, a), op.path, data).None?;
      TrackerIsKnowledge(contexts, start, events, a, op.path, data);
    }
  }

  /****** Edits of several files at once ******/

  /** They are outside this: they do not look at the tracker at all. */
  lemma {:induction false} SeveralIgnoreTheTracker(c: Context, s: State, digests: Digests, changes: seq<(Path, Change)>)
    ensures PrepareAll(c, s.(digests := digests), changes) == PrepareAll(c, s, changes)
  {
    if changes != [] {
      OneIgnoresTheTracker(c, s, digests, changes[0].0, changes[0].1);
      SeveralIgnoreTheTracker(c, s, digests, changes[1..]);
    }
  }

  lemma {:induction false} OneIgnoresTheTracker(c: Context, s: State, digests: Digests, path: Path, change: Change)
    ensures PrepareEdit(c, s.(digests := digests), path, change, false) == PrepareEdit(c, s, path, change, false)
  {
  }

  /** The event overwrites something its agent had neither read nor written. */
  ghost predicate LosesUpdate(contexts: Agent -> Context, start: Disk, events: seq<Event>, e: Event, path: Path)
    requires !e.Outside?
  {
    var disk := Reached(contexts, start, events).disk;
    && NodeAt(Reached(contexts, start, events + [e]).disk, path) != NodeAt(disk, path)
    && Content(disk, path) != Known(contexts, start, events, e.agent, path)
  }

  lemma {:induction false} AfterEvent(contexts: Agent -> Context, start: Disk, events: seq<Event>, e: Event)
    requires !e.Outside?
    ensures var t := Reached(contexts, start, events);
            Reached(contexts, start, events + [e]) == Update(t, e.agent, Acted(contexts(e.agent), View(t, e.agent), e))
  {
    assert (events + [e])[..|events|] == events;
  }

  /** An edit of several files loses no update if and only if its agent knows what stands in every file
      the edit gives other bytes. */
  lemma {:induction false} SeveralLoseNothingIff(contexts: Agent -> Context, start: Disk, events: seq<Event>, e: Event)
    requires e.ActOnMany? && NoneFail(e.fails) && DistinctChanges(e.changes)
    requires PrepareAll(contexts(e.agent), View(Reached(contexts, start, events), e.agent), e.changes).Success?
    ensures var items := PrepareAll(contexts(e.agent), View(Reached(contexts, start, events), e.agent), e.changes).value;
            (forall p :: !LosesUpdate(contexts, start, events, e, p)) <==>
            (forall k | 0 <= k < |items| && items[k].before != Some(items[k].after) ::
               items[k].before == Known(contexts, start, events, e.agent, items[k].path))
  {
    var t, c, a := Reached(contexts, start, events), contexts(e.agent), e.agent;
    var items := PrepareAll(c, View(t, a), e.changes).value;
    PreparedDescribes(c, View(t, a), e.changes);
    SeveralChange(c, View(t, a), e.changes, e.tool, e.batch, e.fails, e.stuck);
    AfterEvent(contexts, start, events, e);
    forall k | 0 <= k < |items| ensures Content(t.disk, items[k].path) == items[k].before {
      assert NodeAt(t.disk, items[k].path) == AsNode(items[k].before);
    }
    forall k | 0 <= k < |items|
      ensures LosesUpdate(contexts, start, events, e, items[k].path) <==>
              items[k].before != Some(items[k].after) && items[k].before != Known(contexts, start, events, a, items[k].path)
    {
      assert NodeAt(t.disk, items[k].path) == AsNode(items[k].before);
    }
    forall p | LosesUpdate(contexts, start, events, e, p) ensures exists k :: 0 <= k < |items| && items[k].path == p {}
  }

  /** The test a single edit makes would be enough. */
  lemma {:induction false} FreshSeveralLoseNothing(contexts: Agent -> Context, start: Disk, events: seq<Event>, e: Event)
    requires AllTracking(contexts) && e.ActOnMany? && NoneFail(e.fails) && DistinctChanges(e.changes)
    requires PrepareAll(contexts(e.agent), View(Reached(contexts, start, events), e.agent), e.changes).Success?
    requires var t := Reached(contexts, start, events);
             forall k | 0 <= k < |e.changes| ::
               Content(t.disk, e.changes[k].0).Some? ==>
               Stale(contexts(e.agent), TrackerOf(t, e.agent), e.changes[k].0, Content(t.disk, e.changes[k].0).value).None?
    ensures forall p :: !LosesUpdate(contexts, start, events, e, p)
  {
    var t, c, a := Reached(contexts, start, events), contexts(e.agent), e.agent;
    var items := PrepareAll(c, View(t, a), e.changes).value;
    PreparedDescribes(c, View(t, a), e.changes);
    SeveralLoseNothingIff(contexts, start, events, e);
    forall k | 0 <= k < |items| ensures items[k].before == Known(contexts, start, events, a, items[k].path) {
      assert NodeAt(t.disk, items[k].path) == AsNode(items[k].before);
      assert items[k].path == e.changes[k].0;
      TrackerIsKnowledge(contexts, start, events, a, items[k].path, items[k].before.value);
    }
  }

  /****** A run that loses an update ******/

  /** Replaces the whole text by one letter. */
  function Put(letter: char): Change {
    Change(_ => Some([letter]), (_, _) => true)
  }

  predicate Letter(c: char) { 'a' <= c <= 'z' }

  lemma {:induction false} LetterDecodes(x: char)
    requires Letter(x)
    ensures Decode(Utf8([x])) == Success(Source([x], Lf, false, false))
  {
    var none: string := "";
    assert [x][1..] == none && none + none == none && [x] + none == [x];
    assert ReplaceCrLf([x], "\n") == [x] && ReplaceCrLf([x], "") == [x];
    assert CountCrLf([x]) == 0 && CountChar([x], '\r') == 0 && CountChar([x], '\n') == 0;
    assert ReplaceChar([x], '\r', "\n") == [x];
  }

  lemma {:induction false} LetterRenders(src: Source, y: char)
    requires Letter(y) && src.newline.Lf? && !src.bom && !src.trailing
    ensures Render(src, [y]) == [y]
  {
    var none: string := "";
    assert [y][1..] == none && [y] + none == [y];
    assert ReplaceCrLf([y], "\n") == [y] && ReplaceChar([y], '\r', "\n") == [y] && ReplaceChar([y], '\n', "\n") == [y];
  }

  lemma {:induction false} PutPrepares(c: Context, s: State, path: Path, x: char, y: char)
    requires Letter(x) && Letter(y) && x != y && c.writable(path) && Content(s.disk, path) == Some(Utf8([x]))
    ensures PrepareEdit(c, s, path, Put(y), false) == Success(Prepared(path, Some(Utf8([x])), Utf8([y]), false))
    ensures PrepareAll(c, s, [(path, Put(y))]) == Success([Prepared(path, Some(Utf8([x])), Utf8([y]), false)])
  {
    LetterDecodes(x);
    LetterRenders(Source([x], Lf, false, false), y);
    assert [x][0] != [y][0];
    assert [(path, Put(y))][1..] == [];
    var item := Prepared(path, Some(Utf8([x])), Utf8([y]), false);
    assert [item] + [] == [item];
  }

  lemma {:induction false} PutLands(c: Context, s: State, path: Path, x: char, y: char, tool: Tool, batch: string,
                                    fails: Path -> bool, stuck: Path -> bool)
    requires Letter(x) && Letter(y) && x != y && c.writable(path) && Content(s.disk, path) == Some(Utf8([x])) && NoneFail(fails)
    ensures NodeAt(AppliedAll(c, s, [(path, Put(y))], tool, batch, fails, stuck).0.disk, path) == Some(File(Utf8([y])))
  {
    PutPrepares(c, s, path, x, y);
    SeveralChange(c, s, [(path, Put(y))], tool, batch, fails, stuck);
  }

  lemma {:induction false} KnownAfterRead(contexts: Agent -> Context, start: Disk, path: Path, data: Data, other: Event)
    requires Content(start, path) == Some(data) && Decode(data).Success? && !other.Outside? && other.agent != 0
    ensures Known(contexts, start, [Read(0, path), other], 0, path) == Some(data)
  {
    var e, none := Read(0, path), [];
    assert [e, other][..1] == [e] && [e][..0] == none;
    assert Known(contexts, start, [e], 0, path) == Some(data);
  }

  /** One agent has read a file, another replaces its content, and the first one replaces that unseen:
      as a single edit the last step would be refused. */
  lemma {:induction false} SeveralLoseUpdate(contexts: Agent -> Context, path: Path, tool: Tool, fails: Path -> bool, stuck: Path -> bool)
    requires NoneFail(fails) && forall a :: contexts(a).tracking && contexts(a).writable(path)
    ensures var start := map[path := File(Utf8("x"))];
            var events := [Read(0, path), ActOnMany(1, [(path, Put('y'))], tool, "1", fails, stuck)];
            var last := ActOnMany(0, [(path, Put('z'))], tool, "2", fails, stuck);
            && LosesUpdate(contexts, start, events, last, path)
            && Content(Reached(contexts, start, events).disk, path) == Some(Utf8("y"))
            && Known(contexts, start, events, 0, path) == Some(Utf8("x"))
            && Content(Reached(contexts, start, events + [last]).disk, path) == Some(Utf8("z"))
            && Perform(contexts(0), View(Reached(contexts, start, events), 0), Edit(path, Put('z')), tool, "2") == Failure(ChangedOnDisk)
  {
    var start: Disk := map[path := File(Utf8("x"))];
    var e1, e2 := Read(0, path), ActOnMany(1, [(path, Put('y'))], tool, "1", fails, stuck);
    var last := ActOnMany(0, [(path, Put('z'))], tool, "2", fails, stuck);
    var none: seq<Event> := [];
    assert none + [e1] == [e1] && [e1] + [e2] == [e1, e2];
    AfterEvent(contexts, start, none, e1);
    AfterEvent(contexts, start, [e1], e2);
    AfterEvent(contexts, start, [e1, e2], last);
    LetterDecodes('x');
    LetterDecodes('y');
    var t1, t2 := Reached(contexts, start, [e1]), Reached(contexts, start, [e1, e2]);
    PutLands(contexts(1), View(t1, 1), path, 'x', 'y', tool, "1", fails, stuck);
    PutLands(contexts(0), View(t2, 0), path, 'y', 'z', tool, "2", fails, stuck);
    KnownAfterRead(contexts, start, path, Utf8("x"), e2);
    assert TrackerOf(t1, 0)[path] == Some(Utf8("x"));
  }
}
