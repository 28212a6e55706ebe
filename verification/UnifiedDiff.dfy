/**
 Unified diffs in runtime/tools/edits.py: printing an edit script, reading hunks back, locating and
 applying them. The script is whatever `difflib` returns: groups of opcodes that tile both texts.
 */
module UnifiedDiff {
  import opened Decimals
  import opened Lines
  import opened Wrappers

  const HUNK_FUZZ := 5

  datatype Tag = Equal | Replace | Delete | Insert

  datatype Op = Op(tag: Tag, i1: nat, i2: nat, j1: nat, j2: nat)

  type Group = seq<Op>

  /****** Edit scripts ******/

  predicate InBounds(a: seq<string>, b: seq<string>, op: Op) {
    op.i1 <= op.i2 <= |a| && op.j1 <= op.j2 <= |b|
  }

  ghost predicate Faithful(a: seq<string>, b: seq<string>, op: Op) {
    && InBounds(a, b, op)
    && (op.tag.Equal? ==> a[op.i1..op.i2] == b[op.j1..op.j2])
    && (op.tag.Delete? ==> op.j1 == op.j2)
    && (op.tag.Insert? ==> op.i1 == op.i2)
  }

  /** The opcodes of one group, each starting where the one before ends. */
  ghost predicate Chain(a: seq<string>, b: seq<string>, g: Group) {
    && g != []
    && (forall k | 0 <= k < |g| :: Faithful(a, b, g[k]))
    && (forall k | 0 < k < |g| :: g[k].i1 == g[k - 1].i2 && g[k].j1 == g[k - 1].j2)
  }

  function OldStart(g: Group): nat requires g != [] { g[0].i1 }
  function OldEnd(g: Group): nat requires g != [] { g[|g| - 1].i2 }
  function NewStart(g: Group): nat requires g != [] { g[0].j1 }
  function NewEnd(g: Group): nat requires g != [] { g[|g| - 1].j2 }

  /** The groups cover everything in which `a` from line `i` and `b` from line `j` differ; between two
      groups there is at least one common line. */
  ghost predicate Tiles(a: seq<string>, b: seq<string>, groups: seq<Group>, i: nat, j: nat)
    requires i <= |a| && j <= |b|
  {
    if groups == [] then a[i..] == b[j..]
    else
      var g := groups[0];
      && Chain(a, b, g)
      && i <= OldStart(g) <= OldEnd(g) <= |a| && j <= NewStart(g) <= NewEnd(g) <= |b|
      && a[i..OldStart(g)] == b[j..NewStart(g)]
      && (|groups| > 1 && groups[1] != [] ==> OldEnd(g) < OldStart(groups[1]))
      && Tiles(a, b, groups[1..], OldEnd(g), NewEnd(g))
  }

  /****** Printing ******/

  datatype BodyLine = Context(text: string) | Removed(text: string) | Added(text: string)

  function Mark(line: BodyLine): char {
    match line
    case Context(_) => ' '
    case Removed(_) => '-'
    case Added(_) => '+'
  }

  function OldRun(a: seq<string>, op: Op): seq<BodyLine>
    requires op.i1 <= op.i2 <= |a|
  {
    if op.tag.Insert? then []
    else seq(op.i2 - op.i1, k requires 0 <= k < op.i2 - op.i1 =>
               if op.tag.Equal? then Context(a[op.i1 + k]) else Removed(a[op.i1 + k]))
  }

  function NewRun(b: seq<string>, op: Op): seq<BodyLine>
    requires op.j1 <= op.j2 <= |b|
  {
    if op.tag.Equal? || op.tag.Delete? then []
    else seq(op.j2 - op.j1, k requires 0 <= k < op.j2 - op.j1 => Added(b[op.j1 + k]))
  }

  function OpLines(a: seq<string>, b: seq<string>, op: Op): seq<BodyLine>
    requires InBounds(a, b, op)
  {
    OldRun(a, op) + NewRun(b, op)
  }

  function GroupLines(a: seq<string>, b: seq<string>, g: Group): seq<BodyLine>
    requires forall k | 0 <= k < |g| :: InBounds(a, b, g[k])
  {
    if g == [] then [] else OpLines(a, b, g[0]) + GroupLines(a, b, g[1..])
  }

  function HeaderOf(g: Group): string
    requires g != [] && OldStart(g) <= OldEnd(g) && NewStart(g) <= NewEnd(g)
  {
    "@@ -" + Digits(OldStart(g) + 1) + "," + Digits(OldEnd(g) - OldStart(g))
    + " +" + Digits(NewStart(g) + 1) + "," + Digits(NewEnd(g) - NewStart(g)) + " @@"
  }

  predicate Printable(a: seq<string>, b: seq<string>, g: Group) {
    && g != [] && OldStart(g) <= OldEnd(g) && NewStart(g) <= NewEnd(g)
    && forall k | 0 <= k < |g| :: InBounds(a, b, g[k])
  }

  /** `_diff_line`: a line of the patch ends with exactly one newline. */
  function DiffLine(mark: char, line: string): string {
    if EndsWithNewline(line) then [mark] + line else [mark] + line + "\n"
  }

  function WriteLine(line: BodyLine): string {
    DiffLine(Mark(line), line.text)
  }

  function ConcatMap<T>(write: T -> string, items: seq<T>): string {
    if items == [] then "" else write(items[0]) + ConcatMap(write, items[1..])
  }

  function WriteLines(lines: seq<BodyLine>): string {
    ConcatMap(WriteLine, lines)
  }

  function WriteGroups(a: seq<string>, b: seq<string>, groups: seq<Group>): string
    requires forall k | 0 <= k < |groups| :: Printable(a, b, groups[k])
  {
    if groups == [] then ""
    else
      assert Printable(a, b, groups[0]);
      HeaderOf(groups[0]) + "\n" + WriteLines(GroupLines(a, b, groups[0])) + WriteGroups(a, b, groups[1..])
  }

  /** The two file lines come first even when no group follows: the groups are a generator, which is
      never falsy, so the test for an empty patch does not fire. */
  function Written(a: seq<string>, b: seq<string>, groups: seq<Group>, path: string): string
    requires forall k | 0 <= k < |groups| :: Printable(a, b, groups[k])
  {
    "--- a/" + path + "\n" + ("+++ b/" + path + "\n" + WriteGroups(a, b, groups))
  }

  lemma {:induction false} NextGroup(a: seq<string>, b: seq<string>, groups: seq<Group>, n: nat, text: string)
    requires n < |groups| && Printable(a, b, groups[n]) && forall k | 0 <= k < |groups| :: Printable(a, b, groups[k])
    ensures var block := HeaderOf(groups[n]) + "\n" + WriteLines(GroupLines(a, b, groups[n]));
            text + WriteGroups(a, b, groups[n..]) == text + block + WriteGroups(a, b, groups[n + 1..])
  {
    assert groups[n..][1..] == groups[n + 1..];
    Assoc(text, HeaderOf(groups[n]) + "\n" + WriteLines(GroupLines(a, b, groups[n])), WriteGroups(a, b, groups[n + 1..]));
  }

  method FormatUnifiedDiff(before: string, after: string, groups: seq<Group>, path: string) returns (text: string)
    requires forall k | 0 <= k < |groups| :: Printable(Split(before), Split(after), groups[k])
    ensures text == Written(Split(before), Split(after), groups, path)
  {
    var body := FormatGroups(Split(before), Split(after), groups);
    text := "--- a/" + path + "\n" + ("+++ b/" + path + "\n" + body);
  }

  method FormatGroups(a: seq<string>, b: seq<string>, groups: seq<Group>) returns (text: string)
    requires forall k | 0 <= k < |groups| :: Printable(a, b, groups[k])
    ensures text == WriteGroups(a, b, groups)
  {
    text := "";
    ghost var goal := WriteGroups(a, b, groups);
    assert groups[0..] == groups && text + goal == goal;
    for n := 0 to |groups|
      invariant text + WriteGroups(a, b, groups[n..]) == goal
    {
      var lines := FormatGroup(a, b, groups[n]);
      NextGroup(a, b, groups, n, text);
      text := text + (HeaderOf(groups[n]) + "\n" + lines);
    }
    assert groups[|groups|..] == [] && text + "" == text;
  }

  lemma {:induction false} NextOp(a: seq<string>, b: seq<string>, g: Group, k: nat, text: string, lines: string)
    requires k < |g| && (forall k | 0 <= k < |g| :: InBounds(a, b, g[k])) && WriteLines(OpLines(a, b, g[k])) == lines
    ensures text + WriteLines(GroupLines(a, b, g[k..])) == text + lines + WriteLines(GroupLines(a, b, g[k + 1..]))
  {
    assert g[k..][1..] == g[k + 1..];
    WriteConcat(OpLines(a, b, g[k]), GroupLines(a, b, g[k + 1..]));
    Assoc(text, lines, WriteLines(GroupLines(a, b, g[k + 1..])));
  }

  method FormatGroup(a: seq<string>, b: seq<string>, g: Group) returns (text: string)
    requires Printable(a, b, g)
    ensures text == WriteLines(GroupLines(a, b, g))
  {
    text := "";
    ghost var goal := WriteLines(GroupLines(a, b, g));
    assert g[0..] == g && text + goal == goal;
    for k := 0 to |g|
      invariant text + WriteLines(GroupLines(a, b, g[k..])) == goal
    {
      var lines := FormatOp(a, b, g[k]);
      NextOp(a, b, g, k, text, lines);
      text := text + lines;
    }
    assert g[|g|..] == [] && text + "" == text;
  }

  method FormatOp(a: seq<string>, b: seq<string>, op: Op) returns (text: string)
    requires InBounds(a, b, op)
    ensures text == WriteLines(OpLines(a, b, op))
  {
    var lines := "";
    if !op.tag.Insert? {
      lines := FormatRun(if op.tag.Equal? then ' ' else '-', a[op.i1..op.i2]);
    }
    var added := "";
    if op.tag.Replace? || op.tag.Insert? {
      added := FormatRun('+', b[op.j1..op.j2]);
    }
    OpWritten(a, b, op, lines, added);
    text := lines + added;
  }

  function MarkRun(mark: char, lines: seq<string>): string {
    if lines == [] then "" else DiffLine(mark, lines[0]) + MarkRun(mark, lines[1..])
  }

  method FormatRun(mark: char, lines: seq<string>) returns (text: string)
    ensures text == MarkRun(mark, lines)
  {
    text := "";
    for k := 0 to |lines|
      invariant text + MarkRun(mark, lines[k..]) == MarkRun(mark, lines)
    {
      assert lines[k..][1..] == lines[k + 1..];
      Assoc(text, DiffLine(mark, lines[k]), MarkRun(mark, lines[k + 1..]));
      text := text + DiffLine(mark, lines[k]);
    }
    assert lines[|lines|..] == [];
    assert text + "" == text;
  }

  lemma {:induction false} ConcatMapAppend<T>(write: T -> string, a: seq<T>, b: seq<T>)
    ensures ConcatMap(write, a + b) == ConcatMap(write, a) + ConcatMap(write, b)
  {
    if a == [] {
      assert a + b == b;
      assert "" + ConcatMap(write, b) == ConcatMap(write, b);
    } else {
      ConcatMapAppend(write, a[1..], b);
      assert (a + b)[1..] == a[1..] + b;
      Assoc(write(a[0]), ConcatMap(write, a[1..]), ConcatMap(write, b));
    }
  }

  lemma {:induction false} WriteConcat(a: seq<BodyLine>, b: seq<BodyLine>)
    ensures WriteLines(a + b) == WriteLines(a) + WriteLines(b)
  {
    ConcatMapAppend(WriteLine, a, b);
  }

  lemma {:induction false} RunWritten(lines: seq<BodyLine>, mark: char, texts: seq<string>)
    requires |lines| == |texts| && forall k | 0 <= k < |lines| :: Mark(lines[k]) == mark && lines[k].text == texts[k]
    ensures WriteLines(lines) == MarkRun(mark, texts)
  {
    if lines != [] { RunWritten(lines[1..], mark, texts[1..]); }
  }

  lemma {:induction false} OpWritten(a: seq<string>, b: seq<string>, op: Op, lines: string, added: string)
    requires InBounds(a, b, op)
    requires lines == if op.tag.Insert? then "" else MarkRun(if op.tag.Equal? then ' ' else '-', a[op.i1..op.i2])
    requires added == if op.tag.Replace? || op.tag.Insert? then MarkRun('+', b[op.j1..op.j2]) else ""
    ensures WriteLines(OpLines(a, b, op)) == lines + added
  {
    OldRunWritten(a, op);
    NewRunWritten(b, op);
    WriteConcat(OldRun(a, op), NewRun(b, op));
  }

  lemma {:induction false} OldRunWritten(a: seq<string>, op: Op)
    requires op.i1 <= op.i2 <= |a|
    ensures WriteLines(OldRun(a, op))
         == if op.tag.Insert? then "" else MarkRun(if op.tag.Equal? then ' ' else '-', a[op.i1..op.i2])
  {
    if !op.tag.Insert? { RunWritten(OldRun(a, op), if op.tag.Equal? then ' ' else '-', a[op.i1..op.i2]); }
  }

  lemma {:induction false} NewRunWritten(b: seq<string>, op: Op)
    requires op.j1 <= op.j2 <= |b|
    ensures WriteLines(NewRun(b, op)) == if op.tag.Replace? || op.tag.Insert? then MarkRun('+', b[op.j1..op.j2]) else ""
  {
    if op.tag.Replace? || op.tag.Insert? { RunWritten(NewRun(b, op), '+', b[op.j1..op.j2]); }
  }

  /****** Parsing ******/

  datatype Hunk = Hunk(oldStart: nat, oldCount: nat, newStart: nat, newCount: nat,
                       oldLines: seq<string>, newLines: seq<string>, header: string)

  function Eat(token: string, s: Option<string>): Option<string> {
    if s.Some? && token <= s.value then Some(s.value[|token|..]) else None
  }

  /** `(\d+)` */
  function EatNumber(s: Option<string>): Option<(nat, string)> {
    if s.Some? then TakeNumber(s.value) else None
  }

  /** `(?:,(\d+))?`, with 1 for a count that is not there. */
  function EatCount(s: string): (nat, string) {
    var n := EatNumber(Eat(",", Some(s)));
    if n.Some? then n.value else (1, s)
  }

  /** `(\d+)(?:,(\d+))?` */
  function EatRange(s: Option<string>): Option<(nat, nat, string)> {
    var start := EatNumber(s);
    if start.None? then None
    else
      var (count, rest) := EatCount(start.value.1);
      Some((start.value.0, count, rest))
  }

  /** `^@@ -(\d+)(?:,(\d+))? \+(\d+)(?:,(\d+))? @@` */
  function ParseHeader(line: string): Option<(nat, nat, nat, nat)> {
    var olds := EatRange(Eat("@@ -", Some(line)));
    if olds.None? then None
    else
      var news := EatRange(Eat(" +", Some(olds.value.2)));
      if news.None? || Eat(" @@", Some(news.value.2)).None? then None
      else Some((olds.value.0, olds.value.1, news.value.0, news.value.1))
  }

  predicate EndsBody(line: string) {
    "@@" <= line || "--- " <= line || "+++ " <= line
  }

  /** What one line of a hunk body adds to the old and to the new side. */
  function Sides(line: string): (seq<string>, seq<string>) {
    if "\\" <= line then ([], [])
    else if "-" <= line then ([line[1..]], [])
    else if "+" <= line then ([], [line[1..]])
    else if " " <= line then ([line[1..]], [line[1..]])
    else ([line], [line])
  }

  /** The old side, the new side, and the lines after the body. */
  function ParseBody(lines: seq<string>): (r: (seq<string>, seq<string>, seq<string>))
    ensures |r.2| <= |lines|
  {
    if lines == [] || EndsBody(lines[0]) then ([], [], lines)
    else
      var (olds, news) := Sides(lines[0]);
      var (o, n, rest) := ParseBody(lines[1..]);
      (olds + o, news + n, rest)
  }

  function HunkFrom(line: string, olds: seq<string>, news: seq<string>): Hunk
    requires ParseHeader(line).Some?
  {
    var (i, oldCount, j, newCount) := ParseHeader(line).value;
    Hunk(i, oldCount, j, newCount, olds, news, line)
  }

  function Scan(lines: seq<string>): seq<Hunk>
    decreases |lines|
  {
    if lines == [] then []
    else if ParseHeader(lines[0]).None? then Scan(lines[1..])
    else
      var (olds, news, rest) := ParseBody(lines[1..]);
      [HunkFrom(lines[0], olds, news)] + Scan(rest)
  }

  datatype PatchError = NoHunks | NoMatch(hunk: Hunk)

  function Parsed(patch: string): Result<seq<Hunk>, PatchError> {
    var hunks := Scan(Bodies(patch));
    if hunks == [] then Failure(NoHunks) else Success(hunks)
  }

  lemma {:induction false} ScanNext(lines: seq<string>, index: nat, next: nat, olds: seq<string>, news: seq<string>, hunks: seq<Hunk>)
    requires index < next <= |lines| && ParseHeader(lines[index]).Some?
    requires ParseBody(lines[index + 1..]) == (olds, news, lines[next..])
    ensures hunks + Scan(lines[index..]) == hunks + [HunkFrom(lines[index], olds, news)] + Scan(lines[next..])
  {
    var hunk := HunkFrom(lines[index], olds, news);
    assert lines[index..][1..] == lines[index + 1..];
    assert Scan(lines[index..]) == [hunk] + Scan(lines[next..]);
    assert hunks + ([hunk] + Scan(lines[next..])) == hunks + [hunk] + Scan(lines[next..]);
  }

  lemma {:induction false} ScanSkip(lines: seq<string>, index: nat)
    requires index < |lines| && ParseHeader(lines[index]).None?
    ensures Scan(lines[index..]) == Scan(lines[index + 1..])
  {
    assert lines[index..][1..] == lines[index + 1..];
  }

  method ParseUnifiedDiff(patch: string) returns (r: Result<seq<Hunk>, PatchError>)
    ensures r == Parsed(patch)
  {
    var hunks := ReadHunks(Bodies(patch));
    if hunks == [] { return Failure(NoHunks); }
    return Success(hunks);
  }

  method ReadHunks(lines: seq<string>) returns (hunks: seq<Hunk>)
    ensures hunks == Scan(lines)
  {
    hunks := [];
    var index := 0;
    assert lines[0..] == lines && hunks + Scan(lines) == Scan(lines);
    ghost var goal := Scan(lines);
    while index < |lines|
      invariant index <= |lines|
      invariant hunks + Scan(lines[index..]) == goal
    {
      if ParseHeader(lines[index]).None? {
        ScanSkip(lines, index);
        index := index + 1;
        continue;
      }
      var olds, news, next := ReadBody(lines, index + 1);
      ScanNext(lines, index, next, olds, news, hunks);
      hunks := hunks + [HunkFrom(lines[index], olds, news)];
      index := next;
    }
    assert lines[|lines|..] == [] && hunks + [] == hunks;
  }

  lemma {:induction false} NextBodyLine(lines: seq<string>, next: nat, olds: seq<string>, news: seq<string>)
    requires next < |lines| && !EndsBody(lines[next])
    ensures var (o, n) := Sides(lines[next]);
            var (here, after) := (ParseBody(lines[next..]), ParseBody(lines[next + 1..]));
            olds + here.0 == olds + o + after.0 && news + here.1 == news + n + after.1 && here.2 == after.2
  {
    assert lines[next..][1..] == lines[next + 1..];
    var (o, n) := Sides(lines[next]);
    var (o', n', rest) := ParseBody(lines[next + 1..]);
    assert olds + (o + o') == olds + o + o' && news + (n + n') == news + n + n';
  }

  method ReadBody(lines: seq<string>, start: nat) returns (olds: seq<string>, news: seq<string>, next: nat)
    requires start <= |lines|
    ensures start <= next <= |lines|
    ensures ParseBody(lines[start..]) == (olds, news, lines[next..])
  {
    olds, news, next := [], [], start;
    ghost var (allOlds, allNews, allRest) := ParseBody(lines[start..]);
    assert [] + allOlds == allOlds && [] + allNews == allNews;
    while next < |lines| && !EndsBody(lines[next])
      invariant start <= next <= |lines|
      invariant allOlds == olds + ParseBody(lines[next..]).0
      invariant allNews == news + ParseBody(lines[next..]).1
      invariant allRest == ParseBody(lines[next..]).2
    {
      var (o, n) := Sides(lines[next]);
      NextBodyLine(lines, next, olds, news);
      olds, news, next := olds + o, news + n, next + 1;
    }
    assert olds + [] == olds && news + [] == news;
  }

  /****** Locating and applying ******/

  predicate MatchesAt(lines: seq<string>, target: seq<string>, at: int) {
    0 <= at && at + |target| <= |lines| && lines[at..at + |target|] == target
  }

  /** From `delta` lines away outwards, above before below. */
  function Probe(fits: int -> bool, expected: nat, delta: nat, fuzz: nat): Option<nat>
    requires forall at | fits(at) :: at >= 0
    decreases fuzz - delta
  {
    if delta > fuzz then None
    else if fits(expected - delta) then Some(expected - delta)
    else if fits(expected + delta) then Some(expected + delta)
    else Probe(fits, expected, delta + 1, fuzz)
  }

  function Distance(a: int, b: int): nat {
    if a < b then b - a else a - b
  }

  /** A fitting place within the fuzz; no other is nearer, and one as near is below it. */
  ghost predicate Nearest(fits: int -> bool, expected: nat, fuzz: int, r: Option<nat>) {
    && (r.Some? ==>
          && fits(r.value) && Distance(r.value, expected) <= fuzz
          && forall at | fits(at) :: Distance(at, expected) > Distance(r.value, expected)
                                     || (Distance(at, expected) == Distance(r.value, expected) && at >= r.value))
    && (r.None? ==> forall at | fits(at) :: Distance(at, expected) > fuzz)
  }

  function Expected(hunk: Hunk): (at: nat)
    ensures hunk.oldStart > 0 ==> at + 1 == hunk.oldStart
    ensures hunk.oldStart == 0 ==> at == 0
  {
    if hunk.oldStart == 0 then 0 else hunk.oldStart - 1
  }

  function Fits(lines: seq<string>, target: seq<string>): int -> bool {
    at => MatchesAt(lines, target, at)
  }

  function Locate(lines: seq<string>, hunk: Hunk, fuzz: nat): Option<nat> {
    if hunk.oldLines == [] then Some(if hunk.oldStart > |lines| then |lines| else hunk.oldStart)
    else if MatchesAt(lines, hunk.oldLines, Expected(hunk)) then Some(Expected(hunk))
    else Probe(Fits(lines, hunk.oldLines), Expected(hunk), 1, fuzz)
  }

  method ProbeAround(fits: int -> bool, expected: nat, fuzz: nat) returns (r: Option<nat>)
    requires forall at | fits(at) :: at >= 0
    requires !fits(expected)
    ensures r == Probe(fits, expected, 1, fuzz) && Nearest(fits, expected, fuzz, r)
  {
    var delta := 1;
    while delta <= fuzz
      invariant 1 <= delta <= fuzz + 1
      invariant Probe(fits, expected, 1, fuzz) == Probe(fits, expected, delta, fuzz)
      invariant forall at | fits(at) :: Distance(at, expected) >= delta
    {
      if fits(expected - delta) { return Some(expected - delta); }
      if fits(expected + delta) { return Some(expected + delta); }
      forall at | fits(at) ensures Distance(at, expected) >= delta + 1 {
        assert at != expected - delta && at != expected + delta;
      }
      delta := delta + 1;
    }
    return None;
  }

  /** A hunk with an old side goes to the nearest place within the fuzz where that side stands, the one
      above before the one below; it is refused when there is none. */
  method LocateHunk(lines: seq<string>, hunk: Hunk, fuzz: nat) returns (r: Option<nat>)
    ensures r == Locate(lines, hunk, fuzz)
    ensures hunk.oldLines != [] ==> Nearest(Fits(lines, hunk.oldLines), Expected(hunk), fuzz, r)
    ensures hunk.oldLines == [] ==> r == Some(if hunk.oldStart <= |lines| then hunk.oldStart else |lines|)
  {
    var target := hunk.oldLines;
    if target == [] {
      return Some(if hunk.oldStart > |lines| then |lines| else hunk.oldStart);
    }
    var expected := Expected(hunk);
    if MatchesAt(lines, target, expected) { return Some(expected); }
    r := ProbeAround(Fits(lines, target), expected, fuzz);
  }

  type Located = (nat, Hunk)

  ghost predicate Descending(located: seq<Located>) {
    forall i, j | 0 <= i < j < |located| :: located[i].0 >= located[j].0
  }

  /** A stable sort by position, last first. */
  function SortDescending(located: seq<Located>): (r: seq<Located>)
    ensures |r| == |located| && multiset(r) == multiset(located)
    ensures Descending(r)
  {
    if located == [] then []
    else
      assert located == located[..|located| - 1] + [located[|located| - 1]];
      InsertDescending(SortDescending(located[..|located| - 1]), located[|located| - 1])
  }

  function InsertDescending(sorted: seq<Located>, item: Located): (r: seq<Located>)
    requires Descending(sorted)
    ensures |r| == |sorted| + 1 && multiset(r) == multiset(sorted) + multiset{item}
    ensures Descending(r)
  {
    if sorted == [] || sorted[|sorted| - 1].0 >= item.0 then sorted + [item]
    else
      var front, last := sorted[..|sorted| - 1], sorted[|sorted| - 1];
      assert sorted == front + [last];
      var r := InsertDescending(front, item);
      LastDescends(front, last, item, r);
      r + [last]
  }

  lemma {:induction false} LastDescends(front: seq<Located>, last: Located, item: Located, r: seq<Located>)
    requires Descending(front + [last]) && Descending(r) && last.0 < item.0
    requires multiset(r) == multiset(front) + multiset{item}
    ensures Descending(r + [last])
  {
    forall k | 0 <= k < |r| ensures r[k].0 >= last.0 {
      assert r[k] in multiset(r);
      if r[k] != item {
        assert r[k] in multiset(front);
        var j :| 0 <= j < |front| && front[j] == r[k];
        assert (front + [last])[j] == r[k] && (front + [last])[|front|] == last;
      }
    }
  }

  function ItemsAt(located: seq<Located>, at: nat): seq<Located> {
    if located == [] then []
    else
      var last := located[|located| - 1];
      ItemsAt(located[..|located| - 1], at) + (if last.0 == at then [last] else [])
  }

  lemma {:induction false} ItemsAtAppend(located: seq<Located>, item: Located, at: nat)
    ensures ItemsAt(located + [item], at) == ItemsAt(located, at) + (if item.0 == at then [item] else [])
  {
    assert (located + [item])[..|located|] == located;
  }

  lemma {:induction false} InsertIsStable(sorted: seq<Located>, item: Located, at: nat)
    requires Descending(sorted)
    ensures ItemsAt(InsertDescending(sorted, item), at) == ItemsAt(sorted + [item], at)
  {
    if sorted != [] && sorted[|sorted| - 1].0 < item.0 {
      var front, last := sorted[..|sorted| - 1], sorted[|sorted| - 1];
      InsertIsStable(front, item, at);
      StableStep(front, last, item, InsertDescending(front, item), at);
      assert sorted == front + [last];
    }
  }

  lemma {:induction false} StableStep(front: seq<Located>, last: Located, item: Located, r: seq<Located>, at: nat)
    requires last.0 != item.0 && ItemsAt(r, at) == ItemsAt(front + [item], at)
    ensures ItemsAt(r + [last], at) == ItemsAt(front + [last] + [item], at)
  {
    ItemsAtAppend(r, last, at);
    ItemsAtAppend(front, item, at);
    ItemsAtAppend(front, last, at);
    ItemsAtAppend(front + [last], item, at);
  }

  /** Hunks located at one place keep their order. */
  lemma {:induction false} SortIsStable(located: seq<Located>, at: nat)
    ensures ItemsAt(SortDescending(located), at) == ItemsAt(located, at)
  {
    if located != [] {
      var front, last := located[..|located| - 1], located[|located| - 1];
      SortIsStable(front, at);
      InsertIsStable(SortDescending(front), last, at);
      ItemsAtAppend(SortDescending(front), last, at);
    }
  }

  /** `lines[at:end] = news`, with the clamping of slice bounds. */
  function Splice(lines: seq<string>, at: nat, end: nat, news: seq<string>): seq<string> {
    var from := if at > |lines| then |lines| else at;
    var to := if end > |lines| then |lines| else end;
    lines[..from] + news + lines[if to < from then from else to..]
  }

  function SpliceAll(lines: seq<string>, located: seq<Located>): seq<string>
    decreases |located|
  {
    if located == [] then lines
    else
      var (at, hunk) := located[0];
      SpliceAll(Splice(lines, at, at + |hunk.oldLines|, hunk.newLines), located[1..])
  }

  function LocateAll(lines: seq<string>, hunks: seq<Hunk>, fuzz: nat): Result<seq<Located>, PatchError> {
    if hunks == [] then Success([])
    else
      var at := Locate(lines, hunks[0], fuzz);
      if at.None? then Failure(NoMatch(hunks[0]))
      else
        var rest := LocateAll(lines, hunks[1..], fuzz);
        if rest.Failure? then rest else Success([(at.value, hunks[0])] + rest.value)
  }

  function Patched(lines: seq<string>, hunks: seq<Hunk>, fuzz: nat): Result<seq<string>, PatchError> {
    var located := LocateAll(lines, hunks, fuzz);
    if located.Failure? then Failure(located.error) else Success(SpliceAll(lines, SortDescending(located.value)))
  }

  /** The final newline of the old text is put back, except on an emptied text. */
  function Rejoined(text: string, lines: seq<string>): string {
    var joined := Join(lines);
    if EndsWithNewline(text) && (joined != "" || text == "\n") then joined + "\n" else joined
  }

  function PatchedText(text: string, hunks: seq<Hunk>, fuzz: nat): Result<string, PatchError> {
    var lines := Patched(Bodies(text), hunks, fuzz);
    if lines.Failure? then Failure(lines.error) else Success(Rejoined(text, lines.value))
  }

  method Rejoin(text: string, lines: seq<string>) returns (joined: string)
    ensures joined == Rejoined(text, lines)
  {
    joined := Join(lines);
    if EndsWithNewline(text) {
      if joined != "" {
        joined := joined + "\n";
      } else if text == "\n" {
        joined := "\n";
        assert "" + "\n" == "\n";
      }
    }
  }

  method HunksToText(text: string, hunks: seq<Hunk>, fuzz: nat) returns (r: Result<string, PatchError>)
    ensures r == PatchedText(text, hunks, fuzz)
  {
    var lines := Bodies(text);
    var located := LocateHunks(lines, hunks, fuzz);
    if located.Failure? { return Failure(located.error); }
    lines := SpliceHunks(lines, SortDescending(located.value));
    var joined := Rejoin(text, lines);
    return Success(joined);
  }

  method SpliceHunks(text: seq<string>, order: seq<Located>) returns (lines: seq<string>)
    ensures lines == SpliceAll(text, order)
  {
    lines := text;
    assert order[0..] == order;
    for k := 0 to |order|
      invariant SpliceAll(lines, order[k..]) == SpliceAll(text, order)
    {
      var (at, hunk) := order[k];
      assert order[k..][1..] == order[k + 1..];
      lines := Splice(lines, at, at + |hunk.oldLines|, hunk.newLines);
    }
    assert order[|order|..] == [];
  }

  ghost function Together(located: seq<Located>, rest: Result<seq<Located>, PatchError>): Result<seq<Located>, PatchError> {
    if rest.Failure? then rest else Success(located + rest.value)
  }

  lemma {:induction false} LocateNext(lines: seq<string>, hunks: seq<Hunk>, k: nat, fuzz: nat, located: seq<Located>)
    requires k < |hunks|
    ensures var at := Locate(lines, hunks[k], fuzz);
            Together(located, LocateAll(lines, hunks[k..], fuzz)) ==
            if at.None? then Failure(NoMatch(hunks[k]))
            else Together(located + [(at.value, hunks[k])], LocateAll(lines, hunks[k + 1..], fuzz))
  {
    assert hunks[k..][1..] == hunks[k + 1..];
    var at, rest := Locate(lines, hunks[k], fuzz), LocateAll(lines, hunks[k + 1..], fuzz);
    if at.Some? && rest.Success? {
      assert located + ([(at.value, hunks[k])] + rest.value) == located + [(at.value, hunks[k])] + rest.value;
    }
  }

  method LocateHunks(lines: seq<string>, hunks: seq<Hunk>, fuzz: nat) returns (r: Result<seq<Located>, PatchError>)
    ensures r == LocateAll(lines, hunks, fuzz)
  {
    var located: seq<Located> := [];
    ghost var goal := LocateAll(lines, hunks, fuzz);
    assert hunks[0..] == hunks;
    assert goal.Success? ==> [] + goal.value == goal.value;
    for k := 0 to |hunks|
      invariant Together(located, LocateAll(lines, hunks[k..], fuzz)) == goal
    {
      var at := LocateHunk(lines, hunks[k], fuzz);
      LocateNext(lines, hunks, k, fuzz, located);
      if at.None? { return Failure(NoMatch(hunks[k])); }
      located := located + [(at.value, hunks[k])];
    }
    assert located + [] == located;
    return Success(located);
  }

  method ApplyPatchText(text: string, patch: string) returns (r: Result<string, PatchError>)
    ensures r == if Parsed(patch).Failure? then Failure(Parsed(patch).error)
                 else PatchedText(text, Parsed(patch).value, HUNK_FUZZ)
  {
    var hunks := ParseUnifiedDiff(patch);
    if hunks.Failure? { return Failure(hunks.error); }
    r := HunksToText(text, hunks.value, HUNK_FUZZ);
  }
}
