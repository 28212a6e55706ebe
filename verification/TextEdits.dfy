/**
 LSP text edits in runtime/tools/edits.py: positions count UTF-16 units, and the edits are applied back
 to front, each offset computed on the text as edited so far.
 */
module TextEdits {
  import opened Lines
  import opened Sequences
  import opened Wrappers

  datatype TextEdit = TextEdit(startLine: int, startChar: int, endLine: int, endChar: int, newText: string)

  /****** Offsets ******/

  function Width(c: char): nat {
    if c as int > 0xFFFF then 2 else 1
  }

  function Units(s: string): nat {
    if s == "" then 0 else Width(s[0]) + Units(s[1..])
  }

  /** How many characters of a line its first `units` UTF-16 units are, at most all of them; None when
      the cut splits a surrogate pair, which does not decode. */
  function Index(line: string, units: nat): (r: Option<nat>)
    ensures r.Some? ==> r.value <= |line|
  {
    if units == 0 || line == "" then Some(0)
    else if Width(line[0]) > units then None
    else
      var rest := Index(line[1..], units - Width(line[0]));
      if rest.None? then None else Some(1 + rest.value)
  }

  /** The offset of a position, line by line; past the last line it is the end of the text. */
  function Offset(text: string, line: nat, units: nat): (r: Option<nat>)
    ensures r.Some? ==> r.value <= |text|
  {
    if text == "" then Some(0)
    else
      var n := FirstLine(text);
      if line == 0 then Index(text[..n], units)
      else
        var rest := Offset(text[n..], line - 1, units);
        if rest.None? then None else Some(n + rest.value)
  }

  function NonNegative(n: int): nat {
    if n < 0 then 0 else n
  }

  function At(text: string, line: int, character: int): (r: Option<nat>)
    ensures r.Some? ==> r.value <= |text|
  {
    if line < 0 then Some(0) else Offset(text, line, NonNegative(character))
  }

  function Total(lines: seq<string>): nat {
    if lines == [] then 0 else |lines[0]| + Total(lines[1..])
  }

  /** The offset by the list of lines. */
  function LineOffset(lines: seq<string>, end: nat, line: nat, units: nat): Option<nat> {
    if line >= |lines| then Some(end)
    else if Index(lines[line], units).None? then None
    else Some(Total(lines[..line]) + Index(lines[line], units).value)
  }

  lemma {:induction false} LineOffsetNext(first: string, rest: seq<string>, end: nat, line: nat, units: nat)
    requires line > 0
    ensures LineOffset([first] + rest, |first| + end, line, units) ==
            if LineOffset(rest, end, line - 1, units).None? then None
            else Some(|first| + LineOffset(rest, end, line - 1, units).value)
  {
    var lines := [first] + rest;
    if line < |lines| {
      assert lines[..line] == [first] + rest[..line - 1];
      assert lines[..line][1..] == rest[..line - 1];
    }
  }

  lemma {:induction false} OffsetByLines(text: string, line: nat, units: nat)
    ensures Offset(text, line, units) == LineOffset(Split(text), |text|, line, units)
  {
    if text != "" {
      var n := FirstLine(text);
      if line > 0 {
        OffsetByLines(text[n..], line - 1, units);
        LineOffsetNext(text[..n], Split(text[n..]), |text| - n, line, units);
      } else {
        assert Split(text)[..0] == [];
      }
    }
  }

  method LspOffset(text: string, line: int, character: int) returns (r: Option<nat>)
    ensures r == At(text, line, character)
  {
    var lines := Split(text);
    if line < 0 { return Some(0); }
    OffsetByLines(text, line, NonNegative(character));
    if line >= |lines| { return Some(|text|); }
    var prefix := SumLengths(lines[..line]);
    var index := Index(lines[line], NonNegative(character));
    if index.None? { return None; }
    return Some(prefix + index.value);
  }

  method SumLengths(lines: seq<string>) returns (sum: nat)
    ensures sum == Total(lines)
  {
    sum := 0;
    assert lines[0..] == lines;
    for k := 0 to |lines|
      invariant sum + Total(lines[k..]) == Total(lines)
    {
      assert lines[k..][1..] == lines[k + 1..];
      sum := sum + |lines[k]|;
    }
    assert lines[|lines|..] == [];
  }

  /****** What an offset means ******/

  /** The UTF-16 code units of a character: those above the first plane take a surrogate pair. */
  function Encoded(c: char): (units: seq<int>)
    ensures 1 <= |units| <= 2
  {
    var n := c as int;
    if n < 0x1_0000 then [n] else [0xD800 + (n - 0x1_0000) / 0x400, 0xDC00 + (n - 0x1_0000) % 0x400]
  }

  function Utf16(s: string): (units: seq<int>)
    ensures s == "" <==> units == []
  {
    if s == "" then [] else Encoded(s[0]) + Utf16(s[1..])
  }

  function Cut(units: seq<int>, n: nat): seq<int> {
    if n < |units| then units[..n] else units
  }

  lemma {:induction false} SameRest(first: seq<int>, a: seq<int>, b: seq<int>)
    ensures first + a == first + b <==> a == b
  {
    assert (first + a)[|first|..] == a && (first + b)[|first|..] == b;
  }

  lemma {:induction false} EncodedFirst(c: char, rest: string, units: nat)
    requires units >= |Encoded(c)|
    ensures Cut(Utf16([c] + rest), units) == Encoded(c) + Cut(Utf16(rest), units - |Encoded(c)|)
  {
    assert ([c] + rest)[1..] == rest;
  }

  /** The characters before a column are those whose encoding is the encoded line cut off there. */
  lemma {:induction false} IndexIff(line: string, units: nat, k: nat)
    requires k <= |line|
    ensures Index(line, units) == Some(k) <==> Utf16(line[..k]) == Cut(Utf16(line), units)
  {
    if units > 0 && line != "" {
      assert Width(line[0]) == |Encoded(line[0])|;
      if k > 0 {
        assert line[..k] == [line[0]] + line[1..][..k - 1];
        assert line[..k][1..] == line[1..][..k - 1];
      }
      assert line == [line[0]] + line[1..];
      if |Encoded(line[0])| <= units {
        EncodedFirst(line[0], line[1..], units);
        if k > 0 {
          IndexIff(line[1..], units - Width(line[0]), k - 1);
          SameRest(Encoded(line[0]), Utf16(line[1..][..k - 1]), Cut(Utf16(line[1..]), units - Width(line[0])));
        }
      } else {
        assert |Cut(Utf16(line), units)| == 1;
      }
    }
  }

  lemma {:induction false} TotalIsLength(lines: seq<string>)
    ensures Total(lines) == |Concat(lines)|
  {
    if lines != [] { TotalIsLength(lines[1..]); }
  }

  /** The offset of a position: all lines before it, and as many characters of its line as its columns
      encode; a negative line is the start of the text, one past the last its end. */
  lemma {:induction false} AtIff(text: string, line: int, character: int, p: nat)
    ensures var lines := Split(text);
            At(text, line, character) == Some(p) <==>
              if line < 0 then p == 0
              else if line >= |lines| then p == |text|
              else exists k: nat | k <= |lines[line]| ::
                     && p == |Concat(lines[..line])| + k
                     && Utf16(lines[line][..k]) == Cut(Utf16(lines[line]), if character > 0 then character else 0)
  {
    var lines := Split(text);
    if 0 <= line < |lines| {
      OffsetByLines(text, line, NonNegative(character));
      TotalIsLength(lines[..line]);
      forall k: nat | k <= |lines[line]|
        ensures Index(lines[line], NonNegative(character)) == Some(k) <==>
                Utf16(lines[line][..k]) == Cut(Utf16(lines[line]), NonNegative(character))
      {
        IndexIff(lines[line], NonNegative(character), k);
      }
    } else if line >= |lines| {
      OffsetByLines(text, line, NonNegative(character));
    }
  }

  /****** Ordering ******/

  predicate Before(a: TextEdit, b: TextEdit) {
    a.startLine < b.startLine || (a.startLine == b.startLine && a.startChar < b.startChar)
  }

  /** A stable sort by start, last first. */
  function SortDescending(edits: seq<TextEdit>): seq<TextEdit> {
    if edits == [] then []
    else InsertDescending(SortDescending(edits[..|edits| - 1]), edits[|edits| - 1])
  }

  function InsertDescending(sorted: seq<TextEdit>, edit: TextEdit): seq<TextEdit> {
    if sorted == [] || Before(sorted[0], edit) then [edit] + sorted
    else [sorted[0]] + InsertDescending(sorted[1..], edit)
  }

  /** The edits that start at one position, in their order. */
  function StartingAt(edits: seq<TextEdit>, line: int, character: int): seq<TextEdit> {
    if edits == [] then []
    else (if edits[0].startLine == line && edits[0].startChar == character then [edits[0]] else [])
         + StartingAt(edits[1..], line, character)
  }

  lemma {:induction false} StartingAppend(a: seq<TextEdit>, b: seq<TextEdit>, line: int, character: int)
    ensures StartingAt(a + b, line, character) == StartingAt(a, line, character) + StartingAt(b, line, character)
  {
    if a == [] {
      assert a + b == b;
    } else {
      StartingAppend(a[1..], b, line, character);
      assert (a + b)[1..] == a[1..] + b;
      var here := if a[0].startLine == line && a[0].startChar == character then [a[0]] else [];
      assert StartingAt(a + b, line, character) == here + (StartingAt(a[1..], line, character) + StartingAt(b, line, character));
    }
  }

  ghost predicate LaterFirst(edits: seq<TextEdit>) {
    forall i, j | 0 <= i < j < |edits| ::
      edits[i].startLine > edits[j].startLine
      || (edits[i].startLine == edits[j].startLine && edits[i].startChar >= edits[j].startChar)
  }

  lemma {:induction false} InsertSorts(sorted: seq<TextEdit>, edit: TextEdit)
    requires LaterFirst(sorted)
    ensures multiset(InsertDescending(sorted, edit)) == multiset(sorted) + multiset{edit}
    ensures LaterFirst(InsertDescending(sorted, edit))
  {
    if sorted == [] {
    } else if Before(sorted[0], edit) {
      NoneStart(sorted, edit);
    } else {
      var first, rest := sorted[0], sorted[1..];
      assert sorted == [first] + rest;
      InsertSorts(rest, edit);
      FirstStays(first, rest, edit, InsertDescending(rest, edit));
    }
  }

  lemma {:induction false} InsertIsStable(sorted: seq<TextEdit>, edit: TextEdit, line: int, character: int)
    requires LaterFirst(sorted)
    ensures StartingAt(InsertDescending(sorted, edit), line, character)
         == StartingAt(sorted, line, character) + StartingAt([edit], line, character)
  {
    if sorted == [] {
    } else if Before(sorted[0], edit) {
      NoneStart(sorted, edit);
      assert InsertDescending(sorted, edit) == [edit] + sorted;
      StartingFirst(sorted, edit, line, character);
    } else {
      var first, rest := sorted[0], sorted[1..];
      assert sorted == [first] + rest;
      InsertIsStable(rest, edit, line, character);
      assert InsertDescending(sorted, edit) == [first] + InsertDescending(rest, edit);
      StartingNext(first, rest, InsertDescending(rest, edit), edit, line, character);
    }
  }

  lemma {:induction false} StartingFirst(sorted: seq<TextEdit>, edit: TextEdit, line: int, character: int)
    requires StartingAt(sorted, edit.startLine, edit.startChar) == []
    ensures StartingAt([edit] + sorted, line, character)
         == StartingAt(sorted, line, character) + StartingAt([edit], line, character)
  {
    StartingAppend([edit], sorted, line, character);
    if edit.startLine == line && edit.startChar == character {
      assert StartingAt([edit], line, character) + [] == [] + StartingAt([edit], line, character);
    } else {
      assert StartingAt([edit], line, character) == [];
    }
  }

  lemma {:induction false} StartingNext(first: TextEdit, rest: seq<TextEdit>, r: seq<TextEdit>, edit: TextEdit, line: int, character: int)
    requires StartingAt(r, line, character) == StartingAt(rest, line, character) + StartingAt([edit], line, character)
    ensures StartingAt([first] + r, line, character)
         == StartingAt([first] + rest, line, character) + StartingAt([edit], line, character)
  {
    StartingAppend([first], r, line, character);
    StartingAppend([first], rest, line, character);
    AssocEdits(StartingAt([first], line, character), StartingAt(rest, line, character), StartingAt([edit], line, character));
  }

  lemma {:induction false} AssocEdits(a: seq<TextEdit>, b: seq<TextEdit>, c: seq<TextEdit>)
    ensures a + (b + c) == a + b + c
  {
  }

  lemma {:induction false} FirstStays(first: TextEdit, rest: seq<TextEdit>, edit: TextEdit, r: seq<TextEdit>)
    requires LaterFirst([first] + rest) && !Before(first, edit)
    requires LaterFirst(r) && multiset(r) == multiset(rest) + multiset{edit}
    ensures LaterFirst([first] + r)
  {
    var all := [first] + rest;
    forall k | 0 <= k < |r| ensures !Before(first, r[k]) {
      assert r[k] in multiset(r);
      if r[k] != edit {
        assert r[k] in multiset(rest);
        var j :| 0 <= j < |rest| && rest[j] == r[k];
        assert all[0] == first && all[j + 1] == r[k];
      }
    }
  }

  lemma {:induction false} NoneStart(sorted: seq<TextEdit>, edit: TextEdit)
    requires LaterFirst(sorted) && sorted != [] && Before(sorted[0], edit)
    ensures LaterFirst([edit] + sorted) && StartingAt(sorted, edit.startLine, edit.startChar) == []
  {
    if |sorted| > 1 { NoneStart(sorted[1..], edit); }
  }

  /** Sorting keeps every edit, puts later starts first, and leaves edits that start together in order. */
  lemma {:induction false} SortMeans(edits: seq<TextEdit>, line: int, character: int)
    ensures var sorted := SortDescending(edits);
            && multiset(sorted) == multiset(edits) && LaterFirst(sorted)
            && StartingAt(sorted, line, character) == StartingAt(edits, line, character)
  {
    if edits != [] {
      var front, last := edits[..|edits| - 1], edits[|edits| - 1];
      assert edits == front + [last];
      SortMeans(front, line, character);
      InsertSorts(SortDescending(front), last);
      InsertIsStable(SortDescending(front), last, line, character);
      StartingAppend(front, [last], line, character);
      StartingAppend(SortDescending(front), [last], line, character);
    }
  }

  /** A stable sort by start, first first: the order section "TextEdit[]" of LSP 3.17 prescribes. */
  function SortAscending(edits: seq<TextEdit>): seq<TextEdit> {
    if edits == [] then []
    else InsertAscending(SortAscending(edits[..|edits| - 1]), edits[|edits| - 1])
  }

  function InsertAscending(sorted: seq<TextEdit>, edit: TextEdit): seq<TextEdit> {
    if sorted == [] || !Before(edit, sorted[|sorted| - 1]) then sorted + [edit]
    else InsertAscending(sorted[..|sorted| - 1], edit) + [sorted[|sorted| - 1]]
  }

  /****** Applying ******/

  function ApplyOne(text: string, edit: TextEdit): Option<string> {
    var from := At(text, edit.startLine, edit.startChar);
    var to := At(text, edit.endLine, edit.endChar);
    if from.None? || to.None? then None else Some(text[..from.value] + edit.newText + text[to.value..])
  }

  function ApplyInTurn(text: string, edits: seq<TextEdit>): Option<string>
    decreases |edits|
  {
    if edits == [] then Some(text)
    else
      var next := ApplyOne(text, edits[0]);
      if next.None? then None else ApplyInTurn(next.value, edits[1..])
  }

  method ApplyTextEdits(text: string, edits: seq<TextEdit>) returns (r: Option<string>)
    ensures r == ApplyInTurn(text, SortDescending(edits))
  {
    var ordered := SortDescending(edits);
    var current := text;
    assert ordered[0..] == ordered;
    for k := 0 to |ordered|
      invariant ApplyInTurn(current, ordered[k..]) == ApplyInTurn(text, ordered)
    {
      assert ordered[k..][1..] == ordered[k + 1..];
      var edit := ordered[k];
      var from := LspOffset(current, edit.startLine, edit.startChar);
      var to := LspOffset(current, edit.endLine, edit.endChar);
      if from.None? || to.None? { return None; }
      current := current[..from.value] + edit.newText + current[to.value..];
    }
    assert ordered[|ordered|..] == [];
    return Some(current);
  }

  /****** Positions that stay put ******/

  /** The position is inside the document: within its line, or the start of the line after the last. */
  predicate InDocument(text: string, line: nat, units: nat) {
    if text == "" then line == 0 && units == 0
    else
      var n := FirstLine(text);
      if line == 0 then units <= Units(text[..n])
      else (n < |text| || IsBreak(text[n - 1])) && InDocument(text[n..], line - 1, units)
  }

  /** Inside the document, or past the end of a line that ends in a break: such a column stands for the
      place after the break, wherever later lines are edited. */
  predicate Steady(text: string, line: nat, units: nat) {
    if text == "" then line == 0 && units == 0
    else
      var n := FirstLine(text);
      if line == 0 then units <= Units(text[..n]) || IsBreak(text[n - 1])
      else IsBreak(text[n - 1]) && Steady(text[n..], line - 1, units)
  }

  predicate InRange(text: string, line: int, character: int) {
    line < 0 || Steady(text, line, NonNegative(character))
  }

  /** What that adds: any column of a line that ends in a break. */
  lemma {:induction false} SteadyMeans(text: string, line: nat, units: nat)
    ensures var lines := Split(text);
            Steady(text, line, units) <==>
              InDocument(text, line, units) || (line < |lines| && lines[line] != "" && IsBreak(lines[line][|lines[line]| - 1]))
  {
    if text != "" {
      var n := FirstLine(text);
      var lines, rest := Split(text), Split(text[n..]);
      assert lines == [text[..n]] + rest;
      if line > 0 { SteadyMeans(text[n..], line - 1, units); }
    }
  }

  /** The same condition read off the list of lines. */
  lemma {:induction false} InDocumentMeans(text: string, line: nat, units: nat)
    ensures var lines := Split(text);
            InDocument(text, line, units) <==>
              || (line < |lines| && units <= Units(lines[line]))
              || (line == |lines| && units == 0 && (text == "" || IsBreak(text[|text| - 1])))
  {
    if text != "" {
      var n := FirstLine(text);
      var lines, rest := Split(text), Split(text[n..]);
      assert lines == [text[..n]] + rest;
      if line > 0 {
        InDocumentMeans(text[n..], line - 1, units);
        if n < |text| { assert text[n..][|text| - n - 1] == text[|text| - 1]; }
      }
    }
  }

  lemma {:induction false} IndexUnits(line: string, units: nat)
    requires units <= Units(line) && Index(line, units).Some?
    ensures Units(line[..Index(line, units).value]) == units
  {
    if units == 0 || line == "" {
    } else {
      var rest := units - Width(line[0]);
      IndexUnits(line[1..], rest);
      var k := Index(line[1..], rest).value;
      assert line[..k + 1][1..] == line[1..][..k];
    }
  }

  lemma {:induction false} IndexOfPrefix(line: string, k: nat)
    requires k <= |line|
    ensures Index(line, Units(line[..k])) == Some(k)
  {
    if k > 0 {
      IndexOfPrefix(line[1..], k - 1);
      assert line[..k][1..] == line[1..][..k - 1];
    }
  }

  ghost predicate NoReturn(s: string) {
    forall k | 0 <= k < |s| :: s[k] != '\r'
  }

  /** The two texts have the same first `q` characters. */
  ghost predicate Agree(text: string, other: string, q: nat) {
    q <= |text| && q <= |other| && text[..q] == other[..q]
  }

  lemma {:induction false} AgreeTail(text: string, other: string, n: nat, q: nat)
    requires Agree(text, other, q) && n <= q
    ensures Agree(text[n..], other[n..], q - n)
    ensures text[..n] == other[..n]
  {
    assert text[n..][..q - n] == text[..q][n..] && other[n..][..q - n] == other[..q][n..];
    assert text[..n] == text[..q][..n] && other[..n] == other[..q][..n];
  }

  /** Agreeing long enough means sharing the first line break. */
  lemma {:induction false} SharedFirstLine(text: string, other: string, q: nat)
    requires NoReturn(text) && text != "" && Agree(text, other, q) && other != ""
    ensures FirstLine(text) <= q && IsBreak(text[FirstLine(text) - 1]) ==> FirstLine(other) == FirstLine(text)
    ensures FirstLine(other) >= q || FirstLine(other) >= FirstLine(text)
  {
    var n, m := FirstLine(text), FirstLine(other);
    forall k | 0 <= k < q ensures text[k] == other[k] { assert text[..q][k] == other[..q][k]; }
  }

  /** The offset of a steady position. */
  function Place(text: string, line: nat, units: nat): Option<nat> {
    if Steady(text, line, units) then Offset(text, line, units) else None
  }

  lemma {:induction false} IndexPastEnd(line: string, units: nat)
    requires units > Units(line)
    ensures Index(line, units) == Some(|line|)
  {
    if line != "" { IndexPastEnd(line[1..], units - Width(line[0])); }
  }

  lemma {:induction false} LocatedAtStart(other: string, p: nat)
    requires p <= |other| && (other == "" || p <= FirstLine(other))
    ensures Offset(other, 0, Units(other[..p])) == Some(p)
  {
    if other != "" {
      var line := other[..FirstLine(other)];
      assert line[..p] == other[..p];
      IndexOfPrefix(line, p);
    }
  }

  lemma {:induction false} SharedStart(text: string, other: string, units: nat, p: nat, q: nat)
    requires NoReturn(text) && Place(text, 0, units) == Some(p) && p <= q && Agree(text, other, q)
    ensures Offset(other, 0, units) == Some(p)
  {
    if text == "" {
      LocatedAtStart(other, 0);
      assert other[..0] == "";
    } else {
      var line := text[..FirstLine(text)];
      AgreeTail(text, other, p, q);
      if other != "" { SharedFirstLine(text, other, q); }
      if units <= Units(line) {
        IndexUnits(line, units);
        assert line[..p] == text[..p];
        LocatedAtStart(other, p);
      } else {
        IndexPastEnd(line, units);
      }
    }
  }

  lemma {:induction false} PlaceNext(text: string, line: nat, units: nat, p: nat) returns (n: nat, rest: string)
    requires Place(text, line, units) == Some(p) && line > 0
    ensures text != "" && n == FirstLine(text) <= p && IsBreak(text[n - 1])
    ensures rest == text[n..] && Place(rest, line - 1, units) == Some(p - n)
  {
    n := FirstLine(text);
    rest := text[n..];
  }

  lemma {:induction false} SharedRest(text: string, rest: string, other: string, q: nat, n: nat) returns (otherRest: string)
    requires NoReturn(text) && text != "" && Agree(text, other, q) && n == FirstLine(text) <= q && IsBreak(text[n - 1])
    requires rest == text[n..]
    ensures other != "" && FirstLine(other) == n && otherRest == other[n..]
    ensures NoReturn(rest) && Agree(rest, otherRest, q - n)
  {
    SharedFirstLine(text, other, q);
    AgreeTail(text, other, n, q);
    otherRest := other[n..];
  }

  lemma {:induction false} OffsetNext(text: string, rest: string, line: nat, units: nat, n: nat, p: nat)
    requires text != "" && n == FirstLine(text) && rest == text[n..] && line > 0 && Offset(rest, line - 1, units) == Some(p)
    ensures Offset(text, line, units) == Some(n + p)
  {
  }

  lemma {:induction false} SharedNext(text: string, other: string, line: nat, units: nat, p: nat, q: nat)
    returns (n: nat, rest: string, otherRest: string)
    requires NoReturn(text) && Place(text, line, units) == Some(p) && p <= q && Agree(text, other, q) && line > 0
    ensures n <= p && NoReturn(rest) && Place(rest, line - 1, units) == Some(p - n) && Agree(rest, otherRest, q - n)
    ensures other != "" && n == FirstLine(other) && otherRest == other[n..]
  {
    n, rest := PlaceNext(text, line, units, p);
    otherRest := SharedRest(text, rest, other, q, n);
  }

  /** A steady position has the same offset in any text that agrees up to it. */
  lemma {:induction false} PlaceIsShared(text: string, other: string, line: nat, units: nat, p: nat, q: nat)
    requires NoReturn(text) && Place(text, line, units) == Some(p) && p <= q && Agree(text, other, q)
    ensures Offset(other, line, units) == Some(p)
    decreases line
  {
    if line == 0 {
      SharedStart(text, other, units, p, q);
    } else {
      var n, rest, otherRest := SharedNext(text, other, line, units, p, q);
      PlaceIsShared(rest, otherRest, line - 1, units, p - n, q - n);
      OffsetNext(other, otherRest, line, units, n, p - n);
    }
  }

  /** A steady position keeps its offset in any text that agrees up to that offset. */
  lemma {:induction false} OffsetIsLocal(text: string, other: string, line: nat, units: nat, p: nat, q: nat)
    requires NoReturn(text) && Steady(text, line, units) && Offset(text, line, units) == Some(p)
    requires p <= q && Agree(text, other, q)
    ensures Offset(other, line, units) == Some(p)
  {
    PlaceIsShared(text, other, line, units, p, q);
  }

  lemma {:induction false} AtIsLocal(text: string, other: string, line: int, character: int, q: nat)
    requires NoReturn(text) && InRange(text, line, character) && At(text, line, character).Some?
    requires At(text, line, character).value <= q && Agree(text, other, q)
    ensures At(other, line, character) == At(text, line, character)
  {
    if line >= 0 { OffsetIsLocal(text, other, line, NonNegative(character), At(text, line, character).value, q); }
  }

  /****** Positions that move ******/

  /** A position that is not steady is the end of the text. */
  lemma {:induction false} FarIsEnd(text: string, line: nat, units: nat)
    requires !Steady(text, line, units)
    ensures Offset(text, line, units) == Some(|text|)
  {
    if text != "" {
      var n := FirstLine(text);
      if line > 0 {
        if IsBreak(text[n - 1]) {
          FarIsEnd(text[n..], line - 1, units);
        } else {
          assert text[n..] == "";
        }
      } else {
        assert text[..n] == text;
        IndexPastEnd(text, units);
      }
    }
  }

  lemma {:induction false} IndexBeyond(a: string, b: string, units: nat)
    requires units > Units(a) && b != ""
    ensures Index(a + b, units).None? || Index(a + b, units).value > |a|
  {
    if a == "" {
      assert a + b == b;
    } else {
      assert (a + b)[1..] == a[1..] + b;
      IndexBeyond(a[1..], b, units - Width(a[0]));
    }
  }

  lemma {:induction false} LastLineGrows(text: string, tail: string)
    requires NoReturn(text) && text != "" && tail != "" && !IsBreak(text[FirstLine(text) - 1])
    ensures FirstLine(text) == |text| < FirstLine(text + tail)
  {
    var all := text + tail;
    assert forall k | 0 <= k < |text| :: !IsBreak(all[k]);
  }

  lemma {:induction false} FarInEmpty(tail: string, line: nat, units: nat)
    requires tail != "" && (line > 0 || units > 0)
    ensures Offset(tail, line, units).None? || Offset(tail, line, units).value > 0
  {
    if line == 0 {
      var first := tail[..FirstLine(tail)];
      assert "" + first == first;
      IndexBeyond("", first, units);
    }
  }

  lemma {:induction false} FarInLastLine(text: string, tail: string, line: nat, units: nat)
    requires NoReturn(text) && text != "" && tail != "" && !IsBreak(text[FirstLine(text) - 1])
    requires line == 0 ==> units > Units(text)
    ensures Offset(text + tail, line, units).None? || Offset(text + tail, line, units).value > |text|
  {
    var all := text + tail;
    var m := FirstLine(all);
    LastLineGrows(text, tail);
    if line == 0 {
      assert all[..m] == text + tail[..m - |text|];
      IndexBeyond(text, tail[..m - |text|], units);
    }
  }

  lemma {:induction false} OffsetAfter(text: string, rest: string, line: nat, units: nat, n: nat, bound: nat)
    requires text != "" && n == FirstLine(text) && rest == text[n..] && line > 0
    requires Offset(rest, line - 1, units).None? || Offset(rest, line - 1, units).value > bound
    ensures Offset(text, line, units).None? || Offset(text, line, units).value > n + bound
  {
  }

  lemma {:induction false} FarNext(text: string, tail: string, line: nat, units: nat) returns (n: nat, rest: string)
    requires NoReturn(text) && !Steady(text, line, units) && text != "" && IsBreak(text[FirstLine(text) - 1])
    ensures line > 0 && n == FirstLine(text + tail) && rest + tail == (text + tail)[n..] && n + |rest| == |text|
    ensures NoReturn(rest) && !Steady(rest, line - 1, units)
  {
    SharedFirstLine(text, text + tail, |text|);
    n := FirstLine(text);
    rest := text[n..];
  }

  /** After an insertion at the end of the text it reaches over at least one inserted character, or
      splits one. */
  lemma {:induction false} FarMoves(text: string, tail: string, line: nat, units: nat)
    requires NoReturn(text) && !Steady(text, line, units) && tail != ""
    ensures Offset(text + tail, line, units).None? || Offset(text + tail, line, units).value > |text|
    decreases line
  {
    if text == "" {
      assert text + tail == tail;
      FarInEmpty(tail, line, units);
    } else if !IsBreak(text[FirstLine(text) - 1]) {
      assert text[..FirstLine(text)] == text;
      FarInLastLine(text, tail, line, units);
    } else {
      var n, rest := FarNext(text, tail, line, units);
      FarMoves(rest, tail, line - 1, units);
      OffsetAfter(text + tail, rest + tail, line, units, n, |rest|);
    }
  }

  /****** Back to front equals all at once ******/

  /** An edit with its offsets in the original text. */
  datatype Span = Span(from: nat, to: nat, text: string)

  predicate Resolvable(text: string, e: TextEdit) {
    At(text, e.startLine, e.startChar).Some? && At(text, e.endLine, e.endChar).Some?
  }

  /** The edit reaches past the last line, or past the end of a last line without a break. */
  predicate Far(text: string, e: TextEdit) {
    !InRange(text, e.startLine, e.startChar) || !InRange(text, e.endLine, e.endChar)
  }

  /** Only the ends of edits may be too far. */
  ghost predicate StartsInRange(text: string, edits: seq<TextEdit>) {
    forall k | 0 <= k < |edits| :: InRange(text, edits[k].startLine, edits[k].startChar)
  }

  /** Nothing has been inserted before an edit that reaches too far is applied. */
  ghost predicate Harmless(text: string, ordered: seq<TextEdit>, tail: string) {
    forall k | 0 <= k < |ordered| && Far(text, ordered[k]) ::
      tail == "" && forall j | 0 <= j < k :: ordered[j].newText == ""
  }

  function Resolve(text: string, e: TextEdit): Span
    requires Resolvable(text, e)
  {
    Span(At(text, e.startLine, e.startChar).value, At(text, e.endLine, e.endChar).value, e.newText)
  }

  ghost predicate AllResolvable(text: string, edits: seq<TextEdit>) {
    forall k | 0 <= k < |edits| :: Resolvable(text, edits[k])
  }

  ghost function Spans(text: string, edits: seq<TextEdit>): (r: seq<Span>)
    requires AllResolvable(text, edits)
    ensures |r| == |edits| && forall k | 0 <= k < |r| :: Resolvable(text, edits[k]) && r[k] == Resolve(text, edits[k])
  {
    seq(|edits|, k requires 0 <= k < |edits| && Resolvable(text, edits[k]) => Resolve(text, edits[k]))
  }

  /** The spans follow one another without overlap from offset `from` to offset `to`. */
  predicate Disjoint(spans: seq<Span>, from: nat, to: nat) {
    if spans == [] then from <= to
    else from <= spans[0].from <= spans[0].to && Disjoint(spans[1..], spans[0].to, to)
  }

  /** The simultaneous substitution of disjoint spans in text[from..to]. */
  function Substitute(text: string, spans: seq<Span>, from: nat, to: nat): string
    requires Disjoint(spans, from, to) && to <= |text|
  {
    if spans == [] then text[from..to]
    else
      DisjointBounds(spans[1..], spans[0].to, to);
      text[from..spans[0].from] + spans[0].text + Substitute(text, spans[1..], spans[0].to, to)
  }

  lemma {:induction false} DisjointBounds(spans: seq<Span>, from: nat, to: nat)
    requires Disjoint(spans, from, to)
    ensures from <= to
  {
    if spans != [] { DisjointBounds(spans[1..], spans[0].to, to); }
  }

  lemma {:induction false} DisjointLast(spans: seq<Span>, last: Span, from: nat, to: nat)
    requires Disjoint(spans + [last], from, to)
    ensures Disjoint(spans, from, last.from) && last.from <= last.to <= to
  {
    if spans != [] {
      assert (spans + [last])[1..] == spans[1..] + [last];
      DisjointLast(spans[1..], last, spans[0].to, to);
    } else {
      assert (spans + [last])[1..] == [];
    }
  }

  lemma {:induction false} SubstituteLast(text: string, spans: seq<Span>, last: Span, from: nat, to: nat)
    requires Disjoint(spans + [last], from, to) && to <= |text|
    requires Disjoint(spans, from, last.from) && last.from <= last.to <= to
    ensures Substitute(text, spans + [last], from, to)
         == Substitute(text, spans, from, last.from) + last.text + text[last.to..to]
  {
    var all := spans + [last];
    if spans != [] {
      var head := spans[0];
      assert all[0] == head && all[1..] == spans[1..] + [last];
      DisjointLast(spans[1..], last, head.to, to);
      DisjointBounds(spans[1..], head.to, last.from);
      SubstituteLast(text, spans[1..], last, head.to, to);
      var before := text[from..head.from] + head.text;
      assert before + (Substitute(text, spans[1..], head.to, last.from) + last.text + text[last.to..to])
          == before + Substitute(text, spans[1..], head.to, last.from) + last.text + text[last.to..to];
    } else {
      assert all[1..] == [] && all[0] == last;
    }
  }

  /** One step: everything from `to` on has been edited already. */
  lemma {:induction false} AppliesAsResolved(text: string, to: nat, tail: string, e: TextEdit)
    requires NoReturn(text) && Resolvable(text, e) && !Far(text, e) && to <= |text|
    requires Resolve(text, e).from <= Resolve(text, e).to <= to
    ensures var s := Resolve(text, e);
            ApplyOne(text[..to] + tail, e) == Some(text[..s.from] + (s.text + text[s.to..to] + tail))
  {
    var current, s := text[..to] + tail, Resolve(text, e);
    AtIsLocal(text, current, e.startLine, e.startChar, to);
    AtIsLocal(text, current, e.endLine, e.endChar, to);
    assert current[..s.from] == text[..s.from] && current[s.to..] == text[s.to..to] + tail;
    assert text[..s.from] + s.text + (text[s.to..to] + tail) == text[..s.from] + (s.text + text[s.to..to] + tail);
  }

  /** On a text that is still whole, an edit that reaches too far does what it should. */
  lemma {:induction false} AppliesToWhole(text: string, e: TextEdit)
    requires Resolvable(text, e) && Far(text, e) && Resolve(text, e).from <= Resolve(text, e).to
    ensures var s := Resolve(text, e);
            s.to == |text| && ApplyOne(text, e) == Some(text[..s.from] + s.text)
  {
    var s := Resolve(text, e);
    FarEnds(text, e);
    assert text[..s.from] + s.text + text[|text|..] == text[..s.from] + s.text;
  }

  lemma {:induction false} FarEnds(text: string, e: TextEdit)
    requires Resolvable(text, e) && Far(text, e) && Resolve(text, e).from <= Resolve(text, e).to
    ensures Resolve(text, e).to == |text|
  {
    if !InRange(text, e.startLine, e.startChar) {
      FarIsEnd(text, e.startLine, NonNegative(e.startChar));
    } else {
      FarIsEnd(text, e.endLine, NonNegative(e.endChar));
    }
  }

  /** Otherwise, when only its end is too far, it eats into what has been inserted. */
  lemma {:induction false} AppliesTooFar(text: string, tail: string, e: TextEdit) returns (eaten: nat)
    requires NoReturn(text) && Resolvable(text, e) && InRange(text, e.startLine, e.startChar) && Far(text, e) && tail != ""
    ensures Resolve(text, e).to == |text| && 0 < eaten <= |tail|
    ensures var s := Resolve(text, e);
            ApplyOne(text + tail, e).None? || ApplyOne(text + tail, e) == Some(text[..s.from] + (s.text + tail[eaten..]))
  {
    var current, s := text + tail, Resolve(text, e);
    FarIsEnd(text, e.endLine, NonNegative(e.endChar));
    AtIsLocal(text, current, e.startLine, e.startChar, |text|);
    FarMoves(text, tail, e.endLine, NonNegative(e.endChar));
    eaten := |tail|;
    var to := At(current, e.endLine, e.endChar);
    if to.Some? {
      eaten := to.value - |text|;
      assert current[to.value..] == tail[eaten..];
    }
    assert current[..s.from] == text[..s.from];
    assert text[..s.from] + s.text + tail[eaten..] == text[..s.from] + (s.text + tail[eaten..]);
  }

  lemma {:induction false} SpansLast(text: string, ordered: seq<TextEdit>)
    requires ordered != [] && AllResolvable(text, ordered) && AllResolvable(text, Reversed(ordered))
    ensures AllResolvable(text, ordered[1..]) && AllResolvable(text, Reversed(ordered[1..])) && Resolvable(text, ordered[0])
    ensures Spans(text, Reversed(ordered)) == Spans(text, Reversed(ordered[1..])) + [Resolve(text, ordered[0])]
  {
    assert Resolvable(text, ordered[0]);
    assert Reversed(ordered) == Reversed(ordered[1..]) + [ordered[0]];
    forall k | 0 <= k < |ordered| - 1 ensures Resolvable(text, Reversed(ordered[1..])[k]) {
      assert Reversed(ordered[1..])[k] == Reversed(ordered)[k];
    }
  }

  lemma {:induction false} Regroup(a: string, b: string, c: string, d: string)
    ensures a + (b + c + d) == a + b + c + d
  {
  }

  /** One step of the order keeps what is harmless: an edit that ends too far has the whole text before it,
      so that nothing but insertions at the end comes earlier. */
  lemma {:induction false} HarmlessStep(text: string, ordered: seq<TextEdit>, to: nat, tail: string)
    requires ordered != [] && AllResolvable(text, ordered) && AllResolvable(text, Reversed(ordered)) && to <= |text|
    requires Disjoint(Spans(text, Reversed(ordered)), 0, to)
    ensures Resolvable(text, ordered[0]) && Resolve(text, ordered[0]).to <= to
    ensures var s := Resolve(text, ordered[0]);
            Harmless(text, ordered, tail) <==>
            (Far(text, ordered[0]) ==> tail == "") && Harmless(text, ordered[1..], s.text + text[s.to..to] + tail)
  {
    var e, rest := ordered[0], ordered[1..];
    SpansLast(text, ordered);
    var before, s := Spans(text, Reversed(rest)), Resolve(text, e);
    DisjointLast(before, s, 0, to);
    var tail' := s.text + text[s.to..to] + tail;
    forall k | 0 <= k < |rest| && Far(text, rest[k]) ensures tail' == "" <==> e.newText == "" && tail == "" {
      assert Reversed(rest)[|rest| - 1 - k] == rest[k];
      SpanWithin(before, |rest| - 1 - k, 0, s.from);
      FarEnds(text, rest[k]);
      assert before[|rest| - 1 - k].to == |text|;
      assert text[s.to..to] == "";
    }
    assert forall k | 0 <= k < |rest| :: rest[k] == ordered[k + 1];
    if Harmless(text, ordered, tail) {
      forall k | 0 <= k < |rest| && Far(text, rest[k]) ensures tail' == "" && forall j | 0 <= j < k :: rest[j].newText == "" {
        assert Far(text, ordered[k + 1]) && ordered[0].newText == "";
      }
    }
    if (Far(text, e) ==> tail == "") && Harmless(text, rest, tail') {
      forall k | 0 <= k < |ordered| && Far(text, ordered[k])
        ensures tail == "" && forall j | 0 <= j < k :: ordered[j].newText == ""
      {
        if k > 0 {
          assert Far(text, rest[k - 1]);
          forall j | 0 <= j < k ensures ordered[j].newText == "" { if j > 0 { assert rest[j - 1].newText == ""; } }
        }
      }
    }
  }

  lemma {:induction false} SpanWithin(spans: seq<Span>, k: nat, from: nat, to: nat)
    requires Disjoint(spans, from, to) && k < |spans|
    ensures from <= spans[k].from <= spans[k].to <= to
  {
    DisjointBounds(spans[1..], spans[0].to, to);
    if k > 0 { SpanWithin(spans[1..], k - 1, spans[0].to, to); }
  }

  /** The rest of the order turns text[..to] + tail into the substitution before the tail, or eats into the
      tail. */
  lemma {:induction false} BackToFrontFrom(text: string, ordered: seq<TextEdit>, to: nat, tail: string)
    requires NoReturn(text) && AllResolvable(text, ordered) && AllResolvable(text, Reversed(ordered)) && to <= |text|
    requires Disjoint(Spans(text, Reversed(ordered)), 0, to)
    ensures var r, full := ApplyInTurn(text[..to] + tail, ordered), Substitute(text, Spans(text, Reversed(ordered)), 0, to) + tail;
            if Harmless(text, ordered, tail) then r == Some(full)
            else StartsInRange(text, ordered) ==> r.None? || |r.value| < |full|
    decreases |ordered|
  {
    var spans := Spans(text, Reversed(ordered));
    if ordered == [] {
      assert spans == [] && text[0..to] == text[..to];
    } else {
      var e, rest := ordered[0], ordered[1..];
      SpansLast(text, ordered);
      var before, last := Spans(text, Reversed(rest)), Resolve(text, e);
      DisjointLast(before, last, 0, to);
      SubstituteLast(text, before, last, 0, to);
      HarmlessStep(text, ordered, to, tail);
      var sub, next := Substitute(text, before, 0, last.from), last.text + text[last.to..to] + tail;
      Regroup(sub, last.text, text[last.to..to], tail);
      assert StartsInRange(text, ordered) ==> StartsInRange(text, rest) && InRange(text, e.startLine, e.startChar);
      if !Far(text, e) {
        AppliesAsResolved(text, to, tail, e);
        BackToFrontFrom(text, rest, last.from, next);
      } else if tail == "" {
        AppliesToWhole(text, e);
        assert text[..to] + tail == text && next == last.text;
        BackToFrontFrom(text, rest, last.from, next);
      } else if InRange(text, e.startLine, e.startChar) {
        var eaten := AppliesTooFar(text, tail, e);
        var left := last.text + tail[eaten..];
        assert to == |text| && text[..to] == text && text[last.to..to] == "";
        BackToFrontFrom(text, rest, last.from, left);
        assert |sub + left| < |sub + next|;
      }
    }
  }

  /**
   Applying the edits back to front, each offset recomputed on the text edited so far, is one
   simultaneous substitution with all offsets taken in the original text, when no edit that reaches past
   the end of a text without a final break follows one that inserts something; and, when such edits at
   least start in the text, only then.
   */
  lemma {:induction false} BackToFrontIsSimultaneous(text: string, edits: seq<TextEdit>)
    requires NoReturn(text)
    requires var ascending := Reversed(SortDescending(edits));
             AllResolvable(text, ascending) && Disjoint(Spans(text, ascending), 0, |text|)
    ensures var ordered := SortDescending(edits);
            var meant := Some(Substitute(text, Spans(text, Reversed(ordered)), 0, |text|));
            && (Harmless(text, ordered, "") ==> ApplyInTurn(text, ordered) == meant)
            && (StartsInRange(text, ordered) ==> (ApplyInTurn(text, ordered) == meant <==> Harmless(text, ordered, "")))
  {
    var ordered := SortDescending(edits);
    var ascending := Reversed(ordered);
    forall k | 0 <= k < |ordered| ensures Resolvable(text, ordered[k]) {
      assert ordered[k] == ascending[|ordered| - 1 - k];
    }
    assert text[..|text|] + "" == text;
    BackToFrontFrom(text, ordered, |text|, "");
    var result := Substitute(text, Spans(text, ascending), 0, |text|);
    assert result + "" == result;
  }

  /****** The order of edits at one position ******/

  ghost predicate DistinctStarts(edits: seq<TextEdit>) {
    forall i, j | 0 <= i < j < |edits| ::
      edits[i].startLine != edits[j].startLine || edits[i].startChar != edits[j].startChar
  }

  /** With no two edits at one position, back to front is the reverse of the prescribed order. */
  lemma {:induction false} DistinctStartsReverse(edits: seq<TextEdit>)
    requires DistinctStarts(edits)
    ensures Reversed(SortDescending(edits)) == SortAscending(edits)
    ensures multiset(SortAscending(edits)) == multiset(edits)
  {
    if edits != [] {
      var front, last := edits[..|edits| - 1], edits[|edits| - 1];
      assert edits == front + [last];
      DistinctStartsReverse(front);
      var sorted := SortAscending(front);
      forall x | x in sorted ensures Before(x, last) || Before(last, x) {
        assert x in multiset(sorted) && x in multiset(front);
        var i :| 0 <= i < |front| && front[i] == x;
        assert edits[i] == x;
      }
      ReversedTwice(SortDescending(front));
      InsertsMirror(sorted, last);
    } else {
      assert Reversed(SortDescending(edits)) == [];
    }
  }

  lemma {:induction false} ReversedTwice(edits: seq<TextEdit>)
    ensures Reversed(Reversed(edits)) == edits
  {
  }

  lemma {:induction false} InsertsMirror(sorted: seq<TextEdit>, edit: TextEdit)
    requires forall x | x in sorted :: Before(x, edit) || Before(edit, x)
    ensures Reversed(InsertDescending(Reversed(sorted), edit)) == InsertAscending(sorted, edit)
    ensures multiset(InsertAscending(sorted, edit)) == multiset(sorted) + multiset{edit}
  {
    if sorted == [] {
      assert Reversed(sorted) == [];
    } else {
      var front, last := sorted[..|sorted| - 1], sorted[|sorted| - 1];
      var reversed := Reversed(sorted);
      assert sorted == front + [last] && reversed == [last] + Reversed(front);
      assert last in sorted;
      if Before(last, edit) {
        assert Reversed([edit] + reversed) == sorted + [edit];
      } else {
        InsertsMirror(front, edit);
        assert reversed[1..] == Reversed(front);
        assert Reversed([last] + InsertDescending(Reversed(front), edit))
            == Reversed(InsertDescending(Reversed(front), edit)) + [last];
      }
    }
  }

  /** With distinct starts the result is the substitution LSP prescribes, on the same condition. */
  lemma {:induction false} MeetsTheProtocol(text: string, edits: seq<TextEdit>)
    requires NoReturn(text) && DistinctStarts(edits)
    requires AllResolvable(text, SortAscending(edits)) && Disjoint(Spans(text, SortAscending(edits)), 0, |text|)
    ensures var ordered := SortDescending(edits);
            var meant := Some(Substitute(text, Spans(text, SortAscending(edits)), 0, |text|));
            && (Harmless(text, ordered, "") ==> ApplyInTurn(text, ordered) == meant)
            && (StartsInRange(text, ordered) ==> (ApplyInTurn(text, ordered) == meant <==> Harmless(text, ordered, "")))
  {
    DistinctStartsReverse(edits);
    BackToFrontIsSimultaneous(text, edits);
  }

  /** Two insertions at one position come out in reverse, so they meet the protocol only when they
      commute. */
  lemma {:induction false} SamePositionIff(text: string, line: int, character: int, x: string, y: string)
    requires NoReturn(text) && InRange(text, line, character) && At(text, line, character).Some?
    ensures var p := At(text, line, character).value;
            var edits := [TextEdit(line, character, line, character, x), TextEdit(line, character, line, character, y)];
            && ApplyInTurn(text, SortDescending(edits)) == Some(text[..p] + (y + x) + text[p..])
            && (ApplyInTurn(text, SortDescending(edits)) == Some(text[..p] + (x + y) + text[p..]) <==> x + y == y + x)
  {
    var p := At(text, line, character).value;
    var a, b := TextEdit(line, character, line, character, x), TextEdit(line, character, line, character, y);
    SortPair(a, b);
    var first := text[..p] + x + text[p..];
    assert first[..p] == text[..p] && first[p..] == x + text[p..];
    assert Agree(text, first, p);
    AtIsLocal(text, first, line, character, p);
    var second := text[..p] + y + (x + text[p..]);
    assert [a, b][1..] == [b] && [b][1..] == [];
    assert ApplyInTurn(second, [b][1..]) == Some(second);
    assert ApplyInTurn(first, [b]) == Some(second);
    assert ApplyInTurn(text, [a, b]) == Some(second);
    assert second == text[..p] + (y + x) + text[p..];
    SameMiddle(text[..p], y + x, x + y, text[p..]);
  }

  lemma {:induction false} SortPair(a: TextEdit, b: TextEdit)
    requires !Before(a, b)
    ensures SortDescending([a, b]) == [a, b]
  {
    assert [a, b][..1] == [a] && [a][..0] == [];
    var none: seq<TextEdit> := [];
    assert SortDescending(none) == none;
    assert InsertDescending(none, a) == [a];
    assert SortDescending([a]) == [a];
    assert [a][1..] == none && InsertDescending(none, b) == [b];
    assert InsertDescending([a], b) == [a] + [b];
  }

  /** A column past the end of its line is not local: after an insertion at the line's end it reaches
      over the inserted text and deletes it. */
  lemma {:induction false} ColumnPastTheEnd()
    ensures var edits := [TextEdit(0, 2, 0, 2, "X"), TextEdit(0, 0, 0, 99, "Y")];
            ApplyInTurn("ab", SortDescending(edits)) == Some("Y")
  {
    var a, b := TextEdit(0, 2, 0, 2, "X"), TextEdit(0, 0, 0, 99, "Y");
    SortPair(a, b);
    var none: string := "";
    assert FirstLine("ab") == 2 && "ab"[..2] == "ab" && "ab"[1..] == "b" && "b"[1..] == none;
    assert Index("b", 1) == Some(1) && Index("ab", 2) == Some(2);
    var mid := "ab"[..2] + "X" + "ab"[2..];
    assert mid == "abX";
    assert "abX"[1..] == "bX" && "bX"[1..] == "X" && "X"[1..] == none;
    assert FirstLine("X") == 1 && FirstLine("bX") == 2 && FirstLine("abX") == 3 && "abX"[..3] == "abX";
    assert Index("X", 97) == Some(1) && Index("bX", 98) == Some(2) && Index("abX", 99) == Some(3);
    assert [a, b][1..] == [b] && [b][1..] == [];
    var out := "abX"[..0] + "Y" + "abX"[3..];
    assert out == "Y";
    assert ApplyInTurn(out, [b][1..]) == Some(out);
    assert ApplyInTurn(mid, [b]) == Some(out);
  }
}
