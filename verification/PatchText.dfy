/** The diff round trip on whole texts: splitting, printing, parsing, applying and joining again. */
module PatchText {
  import opened Decimals
  import opened DiffRoundTrip
  import opened Lines
  import opened UnifiedDiff
  import opened Wrappers

  /** `bodies` are the lines without their breaks, which are plain newlines or missing. */
  ghost predicate Chomped(lines: seq<string>, bodies: seq<string>) {
    && |lines| == |bodies|
    && forall k | 0 <= k < |lines| ::
         bodies[k] == Chomp(lines[k]) && NoBreak(bodies[k]) && (lines[k] == bodies[k] || lines[k] == bodies[k] + "\n")
  }

  lemma {:induction false} CleanChomped(s: string)
    requires Clean(s)
    ensures Chomped(Split(s), Bodies(s))
  {
    if s != "" {
      var n := FirstLine(s);
      CleanFirstLine(s);
      CleanChomped(s[n..]);
      ChompedCons(s[..n], Chomp(s[..n]), Split(s[n..]), Bodies(s[n..]));
    }
  }

  lemma {:induction false} ChompedCons(line: string, body: string, lines: seq<string>, bodies: seq<string>)
    requires Chomped(lines, bodies)
    requires body == Chomp(line) && NoBreak(body) && (line == body || line == body + "\n")
    ensures Chomped([line] + lines, [body] + bodies)
  {
  }

  /****** The same script on lines without breaks ******/

  lemma {:induction false} SameRun(x: seq<string>, y: seq<string>, x': seq<string>, y': seq<string>, i: nat, i': nat, j: nat, j': nat)
    requires Chomped(x, x') && Chomped(y, y') && i <= i' <= |x| && j <= j' <= |y| && x[i..i'] == y[j..j']
    ensures x'[i..i'] == y'[j..j']
  {
    forall k | 0 <= k < i' - i ensures x'[i..i'][k] == y'[j..j'][k] {
      assert x[i..i'][k] == x[i + k] && y[j..j'][k] == y[j + k];
    }
  }

  lemma {:induction false} ChompedChain(a: seq<string>, b: seq<string>, a': seq<string>, b': seq<string>, g: Group)
    requires Chomped(a, a') && Chomped(b, b') && Chain(a, b, g)
    ensures Chain(a', b', g)
  {
    forall k | 0 <= k < |g| ensures Faithful(a', b', g[k]) {
      var op := g[k];
      assert Faithful(a, b, op);
      if op.tag.Equal? { SameRun(a, b, a', b', op.i1, op.i2, op.j1, op.j2); }
    }
  }

  lemma {:induction false} ChompedTiles(a: seq<string>, b: seq<string>, a': seq<string>, b': seq<string>, groups: seq<Group>, i: nat, j: nat)
    requires Chomped(a, a') && Chomped(b, b') && i <= |a| && j <= |b| && Tiles(a, b, groups, i, j)
    ensures Tiles(a', b', groups, i, j)
  {
    if groups == [] {
      assert |a[i..]| == |b[j..]|;
      assert a[i..] == a[i..|a|] && b[j..] == b[j..|b|];
      SameRun(a, b, a', b', i, |a|, j, |b|);
      assert a'[i..] == a'[i..|a|] && b'[j..] == b'[j..|b|];
    } else {
      var g := groups[0];
      ChompedChain(a, b, a', b', g);
      SameRun(a, b, a', b', i, OldStart(g), j, NewStart(g));
      ChompedTiles(a, b, a', b', groups[1..], OldEnd(g), NewEnd(g));
    }
  }

  /****** The printed text is the printed lines ******/

  ghost predicate ChompedLines(x: seq<BodyLine>, y: seq<BodyLine>) {
    && |x| == |y|
    && forall k | 0 <= k < |x| ::
         Mark(x[k]) == Mark(y[k]) && NoBreak(y[k].text) && (x[k].text == y[k].text || x[k].text == y[k].text + "\n")
  }

  lemma {:induction false} ChompedConcat(x: seq<BodyLine>, y: seq<BodyLine>, u: seq<BodyLine>, v: seq<BodyLine>)
    requires ChompedLines(x, y) && ChompedLines(u, v)
    ensures ChompedLines(x + u, y + v)
  {
  }

  lemma {:induction false} ChompedOp(a: seq<string>, b: seq<string>, a': seq<string>, b': seq<string>, op: Op)
    requires Chomped(a, a') && Chomped(b, b') && InBounds(a, b, op)
    ensures ChompedLines(OpLines(a, b, op), OpLines(a', b', op))
  {
    ChompedRuns(a, b, a', b', op);
    ChompedConcat(OldRun(a, op), OldRun(a', op), NewRun(b, op), NewRun(b', op));
  }

  lemma {:induction false} ChompedRuns(a: seq<string>, b: seq<string>, a': seq<string>, b': seq<string>, op: Op)
    requires Chomped(a, a') && Chomped(b, b') && InBounds(a, b, op)
    ensures ChompedLines(OldRun(a, op), OldRun(a', op)) && ChompedLines(NewRun(b, op), NewRun(b', op))
  {
  }

  lemma {:induction false} ChompedGroup(a: seq<string>, b: seq<string>, a': seq<string>, b': seq<string>, g: Group)
    requires Chomped(a, a') && Chomped(b, b') && forall k | 0 <= k < |g| :: InBounds(a, b, g[k])
    ensures forall k | 0 <= k < |g| :: InBounds(a', b', g[k])
    ensures ChompedLines(GroupLines(a, b, g), GroupLines(a', b', g))
  {
    if g != [] {
      assert InBounds(a, b, g[0]);
      ChompedOp(a, b, a', b', g[0]);
      ChompedGroup(a, b, a', b', g[1..]);
      ChompedConcat(OpLines(a, b, g[0]), OpLines(a', b', g[0]), GroupLines(a, b, g[1..]), GroupLines(a', b', g[1..]));
    }
  }

  lemma {:induction false} WrittenLines(x: seq<BodyLine>, y: seq<BodyLine>)
    requires ChompedLines(x, y)
    ensures WriteLines(x) == Unlines(Render(y))
    ensures forall k | 0 <= k < |Render(y)| :: NoBreak(Render(y)[k])
  {
    if x != [] {
      WrittenLines(x[1..], y[1..]);
      var line := [Mark(y[0])] + y[0].text;
      ConcatCons(line, Render(y[1..]));
      assert !EndsWithNewline(y[0].text);
      if x[0].text != y[0].text {
        assert [Mark(x[0])] + x[0].text == line + "\n";
      }
      assert DiffLine(Mark(x[0]), x[0].text) == line + "\n";
    }
  }

  lemma {:induction false} ChainPrintable(a: seq<string>, b: seq<string>, g: Group)
    requires Chain(a, b, g)
    ensures Printable(a, b, g)
  {
    SidesOfGroup(a, b, g);
    forall k | 0 <= k < |g| ensures InBounds(a, b, g[k]) { assert Faithful(a, b, g[k]); }
  }

  lemma {:induction false} AllPrintable(a: seq<string>, b: seq<string>, groups: seq<Group>)
    requires Chained(a, b, groups)
    ensures forall k | 0 <= k < |groups| :: Printable(a, b, groups[k])
  {
    forall k | 0 <= k < |groups| ensures Printable(a, b, groups[k]) {
      assert Chain(a, b, groups[k]);
      ChainPrintable(a, b, groups[k]);
    }
  }

  lemma {:induction false} HeaderHasNoBreak(g: Group)
    requires g != [] && OldStart(g) <= OldEnd(g) && NewStart(g) <= NewEnd(g)
    ensures NoBreak(HeaderOf(g))
  {
    var i, m, j, n := Digits(OldStart(g) + 1), Digits(OldEnd(g) - OldStart(g)), Digits(NewStart(g) + 1), Digits(NewEnd(g) - NewStart(g));
    assert forall c | IsDigit(c) :: !IsBreak(c);
    assert NoBreak(i) && NoBreak(m) && NoBreak(j) && NoBreak(n);
  }

  lemma {:induction false} WrittenGroups(a: seq<string>, b: seq<string>, a': seq<string>, b': seq<string>, groups: seq<Group>)
    requires Chomped(a, a') && Chomped(b, b') && Chained(a, b, groups) && Chained(a', b', groups)
    requires forall k | 0 <= k < |groups| :: Printable(a, b, groups[k])
    ensures WriteGroups(a, b, groups) == Unlines(RenderGroups(a', b', groups))
    ensures forall k | 0 <= k < |RenderGroups(a', b', groups)| :: NoBreak(RenderGroups(a', b', groups)[k])
  {
    if groups != [] {
      var g, rest := groups[0], groups[1..];
      assert Chain(a, b, g) && Chain(a', b', g) && Printable(a, b, g);
      SidesOfGroup(a', b', g);
      ChompedGroup(a, b, a', b', g);
      WrittenLines(GroupLines(a, b, g), GroupLines(a', b', g));
      WrittenGroups(a, b, a', b', rest);
      HeaderHasNoBreak(g);
      WrittenStep(HeaderOf(g), Render(GroupLines(a', b', g)), RenderGroups(a', b', rest));
    }
  }

  lemma {:induction false} WrittenStep(header: string, lines: seq<string>, others: seq<string>)
    requires NoBreak(header)
    requires forall k | 0 <= k < |lines| :: NoBreak(lines[k])
    requires forall k | 0 <= k < |others| :: NoBreak(others[k])
    ensures var all := [header] + (lines + others);
            && Unlines(all) == header + "\n" + Unlines(lines) + Unlines(others)
            && forall k | 0 <= k < |all| :: NoBreak(all[k])
  {
    UnlinesConcat(lines, others);
    ConcatCons(header, lines + others);
    Assoc(header + "\n", Unlines(lines), Unlines(others));
  }

  lemma {:induction false} WrittenPatch(a: seq<string>, b: seq<string>, a': seq<string>, b': seq<string>, groups: seq<Group>, path: string)
    requires Chomped(a, a') && Chomped(b, b') && Chained(a, b, groups) && Chained(a', b', groups)
    requires NoBreak(path)
    requires forall k | 0 <= k < |groups| :: Printable(a, b, groups[k])
    ensures Bodies(Written(a, b, groups, path)) == PatchLines(a', b', groups, path)
  {
    var minus, plus := "--- a/" + path, "+++ b/" + path;
    var rest := RenderGroups(a', b', groups);
    WrittenGroups(a, b, a', b', groups);
    PatchUnlines(minus, plus, rest);
    PatchHasNoBreak(path, rest);
    BodiesOfUnlines(PatchLines(a', b', groups, path));
  }

  lemma {:induction false} PatchHasNoBreak(path: string, rest: seq<string>)
    requires NoBreak(path) && forall k | 0 <= k < |rest| :: NoBreak(rest[k])
    ensures var all := ["--- a/" + path, "+++ b/" + path] + rest;
            forall k | 0 <= k < |all| :: NoBreak(all[k])
  {
    assert NoBreak("--- a/" + path) && NoBreak("+++ b/" + path);
  }

  lemma {:induction false} PatchUnlines(minus: string, plus: string, rest: seq<string>)
    ensures minus + "\n" + (plus + "\n" + Unlines(rest)) == Unlines([minus, plus] + rest)
  {
    ConcatCons(plus, rest);
    ConcatCons(minus, [plus] + rest);
    assert [minus] + ([plus] + rest) == [minus, plus] + rest;
  }

  /****** The round trip ******/

  ghost predicate TrapFree(a: seq<string>, b: seq<string>, groups: seq<Group>) {
    Chained(a, b, groups) && NoTraps(a, b, groups)
  }

  /** Whether the final newline of the old text is also right for the new one. */
  predicate NewlineFits(before: string, after: string) {
    if after == "" || after == "\n" then (before == "\n") == (after == "\n")
    else EndsWithNewline(before) == EndsWithNewline(after)
  }

  lemma {:induction false} RejoinedIff(before: string, after: string)
    requires Clean(after)
    ensures Rejoined(before, Bodies(after)) == after <==> NewlineFits(before, after)
  {
    var joined := Join(Bodies(after));
    JoinOfBodies(after);
    if joined == "" {
      assert joined + FinalNewline(after) == FinalNewline(after);
      assert "" + "\n" == "\n";
    } else {
      assert joined + "" == joined && |joined + "\n"| == |joined| + 1;
    }
  }

  /**
   For texts whose line breaks are newlines: the printed patch of a script from `before` to `after`
   parses, applies to `before`, and yields the lines of `after`; the text itself is `after` exactly when
   the two agree on the final newline, because the patch does not record it.
   */
  lemma {:induction false} PatchGivesNewText(before: string, after: string, groups: seq<Group>, path: string)
    requires Clean(before) && Clean(after) && NoBreak(path)
    requires groups != [] && Tiles(Split(before), Split(after), groups, 0, 0)
    requires TrapFree(Bodies(before), Bodies(after), groups)
    requires Anchored(Bodies(before), groups)
    ensures forall k | 0 <= k < |groups| :: Printable(Split(before), Split(after), groups[k])
    ensures var patch := Written(Split(before), Split(after), groups, path);
            && Parsed(patch).Success?
            && PatchedText(before, Parsed(patch).value, HUNK_FUZZ) == Success(Rejoined(before, Bodies(after)))
            && (PatchedText(before, Parsed(patch).value, HUNK_FUZZ) == Success(after) <==> NewlineFits(before, after))
  {
    var a, b, a', b' := Split(before), Split(after), Bodies(before), Bodies(after);
    CleanChomped(before);
    CleanChomped(after);
    ChompedTiles(a, b, a', b', groups, 0, 0);
    TilesChained(a, b, groups, 0, 0);
    TilesChained(a', b', groups, 0, 0);
    AllPrintable(a, b, groups);
    WrittenPatch(a, b, a', b', groups, path);
    ReadsBackIff(a', b', groups, path);
    RoundTrip(a', b', groups, path, HUNK_FUZZ);
    RejoinedIff(before, after);
  }

  /** A script without groups tiles equal texts and no others, and what is printed for it is the two
      file lines: not the empty text, and yet an error to parse. */
  lemma {:induction false} EqualTextsPrintFileLines(before: string, after: string, path: string)
    requires NoBreak(path)
    ensures Tiles(Split(before), Split(after), [], 0, 0) <==> before == after
    ensures var patch := Written(Split(before), Split(after), [], path);
            && patch == "--- a/" + path + "\n" + ("+++ b/" + path + "\n")
            && Bodies(patch) == ["--- a/" + path, "+++ b/" + path]
            && Parsed(patch) == Failure(NoHunks)
  {
    assert Split(before)[0..] == Split(before) && Split(after)[0..] == Split(after);
    SplitLosesNothing(before);
    SplitLosesNothing(after);
    var minus, plus := "--- a/" + path, "+++ b/" + path;
    assert plus + "\n" + "" == plus + "\n";
    PatchUnlines(minus, plus, []);
    PatchHasNoBreak(path, []);
    assert [minus, plus] + [] == [minus, plus];
    BodiesOfUnlines([minus, plus]);
    FileLinesAreNoHeaders(path, []);
    assert Unlines([]) == "";
  }

  lemma {:induction false} FileLinesAreNoHeaders(path: string, rest: seq<string>)
    ensures Scan(["--- a/" + path, "+++ b/" + path] + rest) == Scan(rest)
  {
    var minus, plus := "--- a/" + path, "+++ b/" + path;
    var all := [minus, plus] + rest;
    assert all[1..] == [plus] + rest && ([plus] + rest)[1..] == rest;
    assert minus[0] == '-' && plus[0] == '+';
    assert !("@@ -" <= minus) && !("@@ -" <= plus);
  }

  /** A printed patch is an error to parse exactly when no group was printed. */
  lemma {:induction false} NoHunksIff(before: string, after: string, groups: seq<Group>, path: string)
    requires Clean(before) && Clean(after) && NoBreak(path)
    requires Tiles(Split(before), Split(after), groups, 0, 0)
    ensures forall k | 0 <= k < |groups| :: Printable(Split(before), Split(after), groups[k])
    ensures Parsed(Written(Split(before), Split(after), groups, path)) == Failure(NoHunks) <==> groups == []
  {
    var a, b, a', b' := Split(before), Split(after), Bodies(before), Bodies(after);
    CleanChomped(before);
    CleanChomped(after);
    ChompedTiles(a, b, a', b', groups, 0, 0);
    TilesChained(a, b, groups, 0, 0);
    TilesChained(a', b', groups, 0, 0);
    AllPrintable(a, b, groups);
    WrittenPatch(a, b, a', b', groups, path);
    FileLinesAreNoHeaders(path, RenderGroups(a', b', groups));
    if groups != [] { GroupsScan(a', b', groups); }
  }

  /** A line that ends in another break, such as a form feed, prints as two lines: the hunk gains an
      empty context line. */
  lemma {:induction false} ForeignBreakPrintsTwice(mark: char, body: string, c: char)
    requires NoBreak(body) && !IsBreak(mark) && IsBreak(c) && c != '\n' && c != '\r'
    ensures Split(body + [c]) == [body + [c]]
    ensures Bodies(DiffLine(mark, body + [c])) == [[mark] + body, ""]
  {
    EndsAtBreak(body, c, "");
    EndsAtBreak([mark] + body, c, "\n");
    assert body + [c] + "" == body + [c];
    assert (body + [c])[|body| + 1..] == "";
    var s := DiffLine(mark, body + [c]);
    assert s == [mark] + body + [c] + "\n";
    assert s[..|body| + 2] == [mark] + body + [c] && s[|body| + 2..] == "\n";
    assert Chomp([mark] + body + [c]) == [mark] + body;
    assert Bodies("\n") == [""] by { assert "\n"[..1] == "\n" && "\n"[1..] == ""; }
  }

  lemma {:induction false} EndsAtBreak(body: string, c: char, rest: string)
    requires NoBreak(body) && IsBreak(c) && c != '\r'
    ensures FirstLine(body + [c] + rest) == |body| + 1
  {
    var s := body + [c] + rest;
    if body == "" {
      assert s[0] == c;
    } else {
      assert s[0] == body[0] && s[1..] == body[1..] + [c] + rest;
      EndsAtBreak(body[1..], c, rest);
    }
  }
}
