/** A patch that was printed from an edit script is read back and applied to give the new text. */
module DiffRoundTrip {
  import opened Decimals
  import opened Lines
  import opened Sequences
  import opened UnifiedDiff
  import opened Wrappers

  /****** What was printed is read back ******/

  function Olds(lines: seq<BodyLine>): seq<string> {
    if lines == [] then []
    else (if lines[0].Added? then [] else [lines[0].text]) + Olds(lines[1..])
  }

  function News(lines: seq<BodyLine>): seq<string> {
    if lines == [] then []
    else (if lines[0].Removed? then [] else [lines[0].text]) + News(lines[1..])
  }

  function Render(lines: seq<BodyLine>): seq<string> {
    if lines == [] then [] else [[Mark(lines[0])] + lines[0].text] + Render(lines[1..])
  }

  /** A deleted or added line that prints as a file header. */
  predicate Trap(line: BodyLine) {
    (line.Removed? && "-- " <= line.text) || (line.Added? && "++ " <= line.text)
  }

  ghost predicate NoTrap(lines: seq<BodyLine>) {
    forall k | 0 <= k < |lines| :: !Trap(lines[k])
  }

  /** Where a body may stop: at the end, or before a hunk header. */
  predicate Follows(rest: seq<string>) {
    rest == [] || "@@" <= rest[0]
  }

  lemma {:induction false} MarkedLine(line: BodyLine)
    ensures var s := [Mark(line)] + line.text;
            && (EndsBody(s) <==> Trap(line))
            && Sides(s) == (if line.Added? then [] else [line.text], if line.Removed? then [] else [line.text])
  {
    var s := [Mark(line)] + line.text;
    assert s[1..] == line.text && s[0] == Mark(line);
    if "-- " <= line.text && line.Removed? { assert "--- " == "-" + "-- "; assert s[..4] == "--- "; }
    if "++ " <= line.text && line.Added? { assert s[..4] == "+++ "; }
    if "--- " <= s { assert s[..4] == "--- "; assert line.text[..3] == s[1..4] == "-- "; }
    if "+++ " <= s { assert s[..4] == "+++ "; assert line.text[..3] == s[1..4] == "++ "; }
  }

  lemma {:induction false} BodyReadsBack(lines: seq<BodyLine>, rest: seq<string>)
    requires NoTrap(lines) && Follows(rest)
    ensures ParseBody(Render(lines) + rest) == (Olds(lines), News(lines), rest)
  {
    if lines == [] {
      assert Render(lines) + rest == rest;
    } else {
      BodyReadsBack(lines[1..], rest);
      LineReadsBack(lines[0], lines[1..], rest);
      assert lines == [lines[0]] + lines[1..];
    }
  }

  lemma {:induction false} LineReadsBack(line: BodyLine, more: seq<BodyLine>, rest: seq<string>)
    requires !Trap(line) && ParseBody(Render(more) + rest) == (Olds(more), News(more), rest)
    ensures ParseBody(Render([line] + more) + rest) == (Olds([line] + more), News([line] + more), rest)
  {
    var printed := [Mark(line)] + line.text;
    MarkedLine(line);
    SidesCons(line, more);
    ParseBodyCons(printed, Render(more) + rest);
    assert ([line] + more)[1..] == more;
    assert Render([line] + more) + rest == [printed] + (Render(more) + rest);
  }

  lemma {:induction false} ParseBodyCons(line: string, rest: seq<string>)
    requires !EndsBody(line)
    ensures var (olds, news) := Sides(line);
            var (o, n, left) := ParseBody(rest);
            ParseBody([line] + rest) == (olds + o, news + n, left)
  {
    assert ([line] + rest)[1..] == rest;
  }

  /****** What the printer never writes ******/

  ghost predicate GoesOn(lines: seq<string>) {
    forall k | 0 <= k < |lines| :: !("@@" <= lines[k] || "--- " <= lines[k] || "+++ " <= lines[k])
  }

  /** A remark such as the one on a missing final newline is passed over, wherever it stands in a body. */
  lemma {:induction false} RemarkIsIgnored(front: seq<string>, remark: string, rest: seq<string>)
    requires GoesOn(front) && remark != "" && remark[0] == '\\'
    ensures ParseBody(front + [remark] + rest) == ParseBody(front + rest)
  {
    if front == [] {
      assert "\\" <= remark && front + [remark] + rest == [remark] + rest && front + rest == rest;
      ParseBodyCons(remark, rest);
      var (o, n, _) := ParseBody(rest);
      assert [] + o == o && [] + n == n;
    } else {
      RemarkIsIgnored(front[1..], remark, rest);
      SameAfter(front[0], front[1..] + [remark] + rest, front[1..] + rest);
      assert front + [remark] + rest == [front[0]] + (front[1..] + [remark] + rest);
      assert front + rest == [front[0]] + (front[1..] + rest);
    }
  }

  lemma {:induction false} SameAfter(line: string, one: seq<string>, other: seq<string>)
    requires ParseBody(one) == ParseBody(other) && GoesOn([line])
    ensures ParseBody([line] + one) == ParseBody([line] + other)
  {
    assert !EndsBody([line][0]);
    ParseBodyCons(line, one);
    ParseBodyCons(line, other);
  }

  /** A line without a mark is read as a context line, an empty one included. */
  lemma {:induction false} BareLineIsContext(front: seq<string>, bare: string, rest: seq<string>)
    requires GoesOn(front) && (bare == "" || bare[0] !in {'\\', '-', '+', ' '}) && !("@@" <= bare)
    ensures ParseBody(front + [bare] + rest) == ParseBody(front + [" " + bare] + rest)
  {
    if front == [] {
      var marked := " " + bare;
      assert marked[0] == ' ' && marked[1..] == bare;
      assert Sides(bare) == ([bare], [bare]);
      assert Sides(marked) == ([marked[1..]], [marked[1..]]);
      assert !EndsBody(bare) && !EndsBody(marked);
      ParseBodyCons(bare, rest);
      ParseBodyCons(marked, rest);
      assert front + [bare] + rest == [bare] + rest && front + [marked] + rest == [marked] + rest;
    } else {
      BareLineIsContext(front[1..], bare, rest);
      SameAfter(front[0], front[1..] + [bare] + rest, front[1..] + [" " + bare] + rest);
      assert front + [bare] + rest == [front[0]] + (front[1..] + [bare] + rest);
      assert front + [" " + bare] + rest == [front[0]] + (front[1..] + [" " + bare] + rest);
    }
  }

  /** A trap cuts the hunk short. */
  lemma {:induction false} TrapTruncates(lines: seq<BodyLine>, rest: seq<string>)
    requires !NoTrap(lines)
    ensures var (olds, news, _) := ParseBody(Render(lines) + rest);
            |olds| < |Olds(lines)| || |news| < |News(lines)|
    ensures var (olds, news, _) := ParseBody(Render(lines) + rest);
            |olds| <= |Olds(lines)| && |news| <= |News(lines)|
  {
    MarkedLine(lines[0]);
    var all := Render(lines) + rest;
    assert all[0] == [Mark(lines[0])] + lines[0].text;
    assert all[1..] == Render(lines[1..]) + rest;
    if !Trap(lines[0]) {
      assert !NoTrap(lines[1..]) by {
        var k :| 0 <= k < |lines| && Trap(lines[k]);
        assert lines[1..][k - 1] == lines[k];
      }
      TrapTruncates(lines[1..], rest);
    }
  }

  /****** Headers ******/

  lemma {:induction false} EatToken(token: string, rest: string)
    ensures Eat(token, Some(token + rest)) == Some(rest)
  {
    assert (token + rest)[|token|..] == rest;
  }

  lemma {:induction false} RangeReadsBack(start: nat, count: nat, rest: string)
    requires rest != "" && !IsDigit(rest[0])
    ensures EatRange(Some(Digits(start) + ("," + (Digits(count) + rest)))) == Some((start, count, rest))
  {
    TakeWritten(start, "," + (Digits(count) + rest));
    EatToken(",", Digits(count) + rest);
    TakeWritten(count, rest);
  }

  /** A header with its parts grouped from the right. */
  function HeaderText(i: nat, m: nat, j: nat, n: nat): string {
    "@@ -" + (Digits(i) + ("," + (Digits(m) + (" +" + (Digits(j) + ("," + (Digits(n) + " @@")))))))
  }

  lemma {:induction false} TextReadsBack(i: nat, m: nat, j: nat, n: nat)
    ensures ParseHeader(HeaderText(i, m, j, n)) == Some((i, m, j, n))
  {
    var news := Digits(j) + ("," + (Digits(n) + " @@"));
    var olds := Digits(i) + ("," + (Digits(m) + (" +" + news)));
    EatToken("@@ -", olds);
    RangeReadsBack(i, m, " +" + news);
    EatToken(" +", news);
    RangeReadsBack(j, n, " @@");
    assert Eat(" @@", Some(" @@")).Some?;
  }

  lemma {:induction false} HeaderShape(i: string, m: string, j: string, n: string)
    ensures "@@ -" + i + "," + m + " +" + j + "," + n + " @@"
         == "@@ -" + (i + ("," + (m + (" +" + (j + ("," + (n + " @@")))))))
  {
  }

  lemma {:induction false} HeaderReadsBack(g: Group)
    requires g != [] && OldStart(g) <= OldEnd(g) && NewStart(g) <= NewEnd(g)
    ensures ParseHeader(HeaderOf(g)) == Some((OldStart(g) + 1, OldEnd(g) - OldStart(g), NewStart(g) + 1, NewEnd(g) - NewStart(g)))
    ensures "@@" <= HeaderOf(g)
  {
    var i, m, j, n := OldStart(g) + 1, OldEnd(g) - OldStart(g), NewStart(g) + 1, NewEnd(g) - NewStart(g);
    HeaderShape(Digits(i), Digits(m), Digits(j), Digits(n));
    assert HeaderOf(g) == HeaderText(i, m, j, n);
    TextReadsBack(i, m, j, n);
  }

  ghost predicate Numeral(s: string, n: nat) {
    s != "" && (forall k | 0 <= k < |s| :: '0' <= s[k] <= '9') && Value(s) == n
  }

  /** A range as patches write it: a start, and a count unless that is 1. */
  ghost predicate Range(s: string, start: nat, count: nat) {
    || (Numeral(s, start) && count == 1)
    || exists first, second :: Numeral(first, start) && Numeral(second, count) && s == first + ("," + second)
  }

  lemma {:induction false} NumeralTaken(s: string, n: nat, rest: string)
    requires Numeral(s, n) && (rest == "" || !IsDigit(rest[0]))
    ensures TakeNumber(s + rest) == Some((n, rest))
  {
    RunOf(s, rest);
    assert (s + rest)[..|s|] == s && (s + rest)[|s|..] == rest;
  }

  lemma {:induction false} RangeTaken(s: string, start: nat, count: nat, rest: string)
    requires Range(s, start, count) && " " <= rest
    ensures EatRange(Some(s + rest)) == Some((start, count, rest))
  {
    if Numeral(s, start) && count == 1 {
      NumeralTaken(s, start, rest);
    } else {
      var first, second :| Numeral(first, start) && Numeral(second, count) && s == first + ("," + second);
      PairTaken(first, start, second, count, rest);
      Assoc(first, "," + second, rest);
      Assoc(",", second, rest);
    }
  }

  lemma {:induction false} PairTaken(s: string, start: nat, c: string, count: nat, rest: string)
    requires Numeral(s, start) && Numeral(c, count) && " " <= rest
    ensures EatRange(Some(s + ("," + (c + rest)))) == Some((start, count, rest))
  {
    var after := "," + (c + rest);
    NumeralTaken(s, start, after);
    EatToken(",", c + rest);
    NumeralTaken(c, count, rest);
    assert EatCount(after) == (count, rest);
  }

  lemma {:induction false} TakenNumeral(s: string) returns (head: string, n: nat, rest: string)
    requires TakeNumber(s).Some?
    ensures TakeNumber(s) == Some((n, rest)) && Numeral(head, n) && s == head + rest
  {
    var k := DigitRun(s);
    head, n, rest := s[..k], Value(s[..k]), s[k..];
  }

  lemma {:induction false} CountTaken(after: string, count: nat, rest: string)
    requires EatCount(after) == (count, rest)
    ensures (count == 1 && after == rest) || exists second :: Numeral(second, count) && after == "," + (second + rest)
  {
    if "," <= after && TakeNumber(after[1..]).Some? {
      var second, n, left := TakenNumeral(after[1..]);
      assert after == "," + after[1..];
    }
  }

  lemma {:induction false} TakenRange(s: string, start: nat, count: nat, rest: string) returns (range: string)
    requires EatRange(Some(s)) == Some((start, count, rest))
    ensures s == range + rest && Range(range, start, count)
  {
    var head, n, after := TakenNumeral(s);
    CountTaken(after, count, rest);
    if second :| Numeral(second, count) && after == "," + (second + rest) {
      Assoc(",", second, rest);
      Assoc(head, "," + second, rest);
      range := head + ("," + second);
    } else {
      range := head;
    }
  }

  /** A line is a hunk header exactly when it is two ranges between the marks, whatever follows them. */
  lemma {:induction false} HeaderIff(line: string, i: nat, m: nat, j: nat, n: nat)
    ensures ParseHeader(line) == Some((i, m, j, n)) <==>
            exists olds, news, tail :: Range(olds, i, m) && Range(news, j, n)
                                       && line == "@@ -" + (olds + (" +" + (news + (" @@" + tail))))
  {
    if ParseHeader(line) == Some((i, m, j, n)) {
      HeaderTaken(line, i, m, j, n);
    }
    forall olds, news, tail | Range(olds, i, m) && Range(news, j, n)
                              && line == "@@ -" + (olds + (" +" + (news + (" @@" + tail))))
      ensures ParseHeader(line) == Some((i, m, j, n))
    {
      HeaderFits(olds, i, m, news, j, n, tail);
    }
  }

  lemma {:induction false} HeaderFits(olds: string, i: nat, m: nat, news: string, j: nat, n: nat, tail: string)
    requires Range(olds, i, m) && Range(news, j, n)
    ensures ParseHeader("@@ -" + (olds + (" +" + (news + (" @@" + tail))))) == Some((i, m, j, n))
  {
    var t := news + (" @@" + tail);
    EatToken("@@ -", olds + (" +" + t));
    RangeTaken(olds, i, m, " +" + t);
    EatToken(" +", t);
    RangeTaken(news, j, n, " @@" + tail);
    EatToken(" @@", tail);
  }

  lemma {:induction false} Eaten(token: string, s: string)
    requires Eat(token, Some(s)).Some?
    ensures s == token + Eat(token, Some(s)).value
  {
  }

  lemma {:induction false} HeaderTaken(line: string, i: nat, m: nat, j: nat, n: nat)
    requires ParseHeader(line) == Some((i, m, j, n))
    ensures exists olds, news, tail :: Range(olds, i, m) && Range(news, j, n)
                                       && line == "@@ -" + (olds + (" +" + (news + (" @@" + tail))))
  {
    var s := Eat("@@ -", Some(line)).value;
    Eaten("@@ -", line);
    var s2 := EatRange(Some(s)).value.2;
    var olds := TakenRange(s, i, m, s2);
    Eaten(" +", s2);
    var t := Eat(" +", Some(s2)).value;
    var t2 := EatRange(Some(t)).value.2;
    var news := TakenRange(t, j, n, t2);
    Eaten(" @@", t2);
    var tail := Eat(" @@", Some(t2)).value;
    assert Range(olds, i, m) && Range(news, j, n) && line == "@@ -" + (olds + (" +" + (news + (" @@" + tail))));
  }

  /****** Both sides of a group ******/

  lemma {:induction false} SidesConcat(a: seq<BodyLine>, b: seq<BodyLine>)
    ensures Olds(a + b) == Olds(a) + Olds(b) && News(a + b) == News(a) + News(b)
  {
    if a == [] {
      assert a + b == b;
    } else {
      var line, rest := a[0], a[1..];
      SidesConcat(rest, b);
      SidesCons(line, rest + b);
      assert a + b == [line] + (rest + b);
      Regroup(if line.Added? then [] else [line.text], Olds(rest), Olds(b));
      Regroup(if line.Removed? then [] else [line.text], News(rest), News(b));
    }
  }

  lemma {:induction false} Regroup(x: seq<string>, y: seq<string>, z: seq<string>)
    ensures x + (y + z) == x + y + z
  {
  }

  lemma {:induction false} SidesCons(line: BodyLine, rest: seq<BodyLine>)
    ensures Olds([line] + rest) == (if line.Added? then [] else [line.text]) + Olds(rest)
    ensures News([line] + rest) == (if line.Removed? then [] else [line.text]) + News(rest)
  {
    assert ([line] + rest)[1..] == rest;
  }

  lemma {:induction false} SidesOfRun(lines: seq<BodyLine>, texts: seq<string>)
    requires |lines| == |texts| && forall k | 0 <= k < |lines| :: lines[k].text == texts[k]
    ensures (forall k | 0 <= k < |lines| :: !lines[k].Added?) ==> Olds(lines) == texts
    ensures (forall k | 0 <= k < |lines| :: !lines[k].Removed?) ==> News(lines) == texts
    ensures (forall k | 0 <= k < |lines| :: lines[k].Removed?) ==> News(lines) == []
    ensures (forall k | 0 <= k < |lines| :: lines[k].Added?) ==> Olds(lines) == []
  {
    if lines != [] { SidesOfRun(lines[1..], texts[1..]); }
  }

  lemma {:induction false} SidesOfOldRun(a: seq<string>, op: Op)
    requires op.i1 <= op.i2 <= |a| && (op.tag.Insert? ==> op.i1 == op.i2)
    ensures Olds(OldRun(a, op)) == a[op.i1..op.i2]
    ensures News(OldRun(a, op)) == if op.tag.Equal? then a[op.i1..op.i2] else []
  {
    if !op.tag.Insert? { SidesOfRun(OldRun(a, op), a[op.i1..op.i2]); }
  }

  lemma {:induction false} SidesOfNewRun(b: seq<string>, op: Op)
    requires op.j1 <= op.j2 <= |b| && (op.tag.Delete? ==> op.j1 == op.j2)
    ensures Olds(NewRun(b, op)) == []
    ensures News(NewRun(b, op)) == if op.tag.Equal? then [] else b[op.j1..op.j2]
  {
    if op.tag.Replace? || op.tag.Insert? { SidesOfRun(NewRun(b, op), b[op.j1..op.j2]); }
  }

  lemma {:induction false} SidesOfOp(a: seq<string>, b: seq<string>, op: Op)
    requires Faithful(a, b, op)
    ensures Olds(OpLines(a, b, op)) == a[op.i1..op.i2]
    ensures News(OpLines(a, b, op)) == b[op.j1..op.j2]
  {
    SidesOfOldRun(a, op);
    SidesOfNewRun(b, op);
    SidesConcat(OldRun(a, op), NewRun(b, op));
  }

  lemma {:induction false} SidesOfGroup(a: seq<string>, b: seq<string>, g: Group)
    requires Chain(a, b, g)
    ensures OldStart(g) <= OldEnd(g) <= |a| && NewStart(g) <= NewEnd(g) <= |b|
    ensures Olds(GroupLines(a, b, g)) == a[OldStart(g)..OldEnd(g)]
    ensures News(GroupLines(a, b, g)) == b[NewStart(g)..NewEnd(g)]
  {
    assert Faithful(a, b, g[0]);
    SidesOfOp(a, b, g[0]);
    if |g| > 1 {
      ChainRest(a, b, g);
      SidesOfGroup(a, b, g[1..]);
      SidesConcat(OpLines(a, b, g[0]), GroupLines(a, b, g[1..]));
      JoinSlices(a, g[0].i1, g[0].i2, OldEnd(g));
      JoinSlices(b, g[0].j1, g[0].j2, NewEnd(g));
    } else {
      assert GroupLines(a, b, g[1..]) == [];
      assert GroupLines(a, b, g) == OpLines(a, b, g[0]);
    }
  }

  lemma {:induction false} JoinSlices(s: seq<string>, i: nat, j: nat, k: nat)
    requires i <= j <= k <= |s|
    ensures s[i..j] + s[j..k] == s[i..k]
  {
  }

  lemma {:induction false} ChainRest(a: seq<string>, b: seq<string>, g: Group)
    requires Chain(a, b, g) && |g| > 1
    ensures Chain(a, b, g[1..]) && g[1].i1 == g[0].i2 && g[1].j1 == g[0].j2
  {
    var rest := g[1..];
    forall k | 0 < k < |rest| ensures rest[k].i1 == rest[k - 1].i2 && rest[k].j1 == rest[k - 1].j2 {
      assert rest[k] == g[k + 1] && rest[k - 1] == g[k];
    }
  }

  /****** The whole patch, line by line ******/

  function HunkOf(a: seq<string>, b: seq<string>, g: Group): Hunk
    requires g != [] && OldStart(g) <= OldEnd(g) <= |a| && NewStart(g) <= NewEnd(g) <= |b|
  {
    Hunk(OldStart(g) + 1, OldEnd(g) - OldStart(g), NewStart(g) + 1, NewEnd(g) - NewStart(g),
         a[OldStart(g)..OldEnd(g)], b[NewStart(g)..NewEnd(g)], HeaderOf(g))
  }

  ghost predicate Chained(a: seq<string>, b: seq<string>, groups: seq<Group>) {
    forall k | 0 <= k < |groups| :: Chain(a, b, groups[k])
  }

  ghost function HunksOf(a: seq<string>, b: seq<string>, groups: seq<Group>): seq<Hunk>
    requires Chained(a, b, groups)
  {
    if groups == [] then []
    else
      assert Chain(a, b, groups[0]);
      SidesOfGroup(a, b, groups[0]);
      [HunkOf(a, b, groups[0])] + HunksOf(a, b, groups[1..])
  }

  ghost function RenderGroups(a: seq<string>, b: seq<string>, groups: seq<Group>): seq<string>
    requires Chained(a, b, groups)
  {
    if groups == [] then []
    else
      assert Chain(a, b, groups[0]);
      SidesOfGroup(a, b, groups[0]);
      [HeaderOf(groups[0])] + (Render(GroupLines(a, b, groups[0])) + RenderGroups(a, b, groups[1..]))
  }

  ghost function PatchLines(a: seq<string>, b: seq<string>, groups: seq<Group>, path: string): seq<string>
    requires Chained(a, b, groups)
  {
    ["--- a/" + path, "+++ b/" + path] + RenderGroups(a, b, groups)
  }

  /** No deleted line of the patch starts with "-- " and no added one with "++ ". */
  ghost predicate NoTraps(a: seq<string>, b: seq<string>, groups: seq<Group>)
    requires Chained(a, b, groups)
  {
    forall k | 0 <= k < |groups| :: Chain(a, b, groups[k]) && NoTrap(GroupLines(a, b, groups[k]))
  }

  lemma {:induction false} FollowsGroup(a: seq<string>, b: seq<string>, groups: seq<Group>)
    requires Chained(a, b, groups)
    ensures Follows(RenderGroups(a, b, groups))
  {
    if groups != [] {
      assert Chain(a, b, groups[0]);
      SidesOfGroup(a, b, groups[0]);
      HeaderReadsBack(groups[0]);
    }
  }

  lemma {:induction false} GroupReadsBack(g: Group, lines: seq<BodyLine>, rest: seq<string>)
    requires g != [] && OldStart(g) <= OldEnd(g) && NewStart(g) <= NewEnd(g) && Follows(rest)
    ensures var all := [HeaderOf(g)] + (Render(lines) + rest);
            var whole := Hunk(OldStart(g) + 1, OldEnd(g) - OldStart(g), NewStart(g) + 1, NewEnd(g) - NewStart(g),
                              Olds(lines), News(lines), HeaderOf(g));
            && (NoTrap(lines) ==> Scan(all) == [whole] + Scan(rest))
            && (!NoTrap(lines) ==> Scan(all) != [] && Scan(all)[0] != whole)
  {
    var all := [HeaderOf(g)] + (Render(lines) + rest);
    HeaderReadsBack(g);
    assert all[1..] == Render(lines) + rest && all[0] == HeaderOf(g);
    if NoTrap(lines) { BodyReadsBack(lines, rest); } else { TrapTruncates(lines, rest); }
  }

  lemma {:induction false} GroupsReadBackIff(a: seq<string>, b: seq<string>, groups: seq<Group>)
    requires Chained(a, b, groups)
    ensures Scan(RenderGroups(a, b, groups)) == HunksOf(a, b, groups) <==> NoTraps(a, b, groups)
  {
    if groups != [] {
      var g, rest := groups[0], groups[1..];
      assert Chain(a, b, g);
      SidesOfGroup(a, b, g);
      FollowsGroup(a, b, rest);
      GroupReadsBack(g, GroupLines(a, b, g), RenderGroups(a, b, rest));
      GroupsReadBackIff(a, b, rest);
      TrapsSplit(a, b, groups);
      assert RenderGroups(a, b, groups) == [HeaderOf(g)] + (Render(GroupLines(a, b, g)) + RenderGroups(a, b, rest));
      assert HunksOf(a, b, groups)[0] == HunkOf(a, b, g) && HunksOf(a, b, groups)[1..] == HunksOf(a, b, rest);
    }
  }

  lemma {:induction false} GroupsScan(a: seq<string>, b: seq<string>, groups: seq<Group>)
    requires Chained(a, b, groups) && groups != []
    ensures Scan(RenderGroups(a, b, groups)) != []
  {
    var g, rest := groups[0], groups[1..];
    assert Chain(a, b, g);
    SidesOfGroup(a, b, g);
    FollowsGroup(a, b, rest);
    GroupReadsBack(g, GroupLines(a, b, g), RenderGroups(a, b, rest));
  }

  lemma {:induction false} TrapsSplit(a: seq<string>, b: seq<string>, groups: seq<Group>)
    requires Chained(a, b, groups) && groups != []
    ensures Chained(a, b, groups[1..]) && Chain(a, b, groups[0])
    ensures NoTraps(a, b, groups) <==> NoTrap(GroupLines(a, b, groups[0])) && NoTraps(a, b, groups[1..])
  {
    var rest := groups[1..];
    assert Chain(a, b, groups[0]);
    if NoTrap(GroupLines(a, b, groups[0])) && NoTraps(a, b, rest) {
      forall k | 0 <= k < |groups| ensures Chain(a, b, groups[k]) && NoTrap(GroupLines(a, b, groups[k])) {
        if k > 0 { assert groups[k] == rest[k - 1]; }
      }
    }
    if NoTraps(a, b, groups) {
      assert NoTrap(GroupLines(a, b, groups[0]));
      forall k | 0 <= k < |rest| ensures Chain(a, b, rest[k]) && NoTrap(GroupLines(a, b, rest[k])) {
        assert rest[k] == groups[k + 1];
      }
    }
  }

  /** The parser gives back the hunks that were printed exactly when no line of the patch is a trap. */
  lemma {:induction false} ReadsBackIff(a: seq<string>, b: seq<string>, groups: seq<Group>, path: string)
    requires Chained(a, b, groups)
    ensures Scan(PatchLines(a, b, groups, path)) == HunksOf(a, b, groups) <==> NoTraps(a, b, groups)
  {
    var minus, plus := "--- a/" + path, "+++ b/" + path;
    var rest := RenderGroups(a, b, groups);
    assert PatchLines(a, b, groups, path)[1..] == [plus] + rest && ([plus] + rest)[1..] == rest;
    assert minus[0] == '-' && plus[0] == '+';
    assert !("@@ -" <= minus) && !("@@ -" <= plus);
    GroupsReadBackIff(a, b, groups);
  }

  /****** Applying, line by line ******/

  lemma {:induction false} LocatedIff(a: seq<string>, b: seq<string>, g: Group, fuzz: nat)
    requires Chain(a, b, g)
    requires OldStart(g) <= OldEnd(g) <= |a| && NewStart(g) <= NewEnd(g) <= |b|
    ensures Locate(a, HunkOf(a, b, g), fuzz) == Some(OldStart(g)) <==> OldStart(g) < OldEnd(g) || OldStart(g) == |a|
  {
  }

  /** Each hunk has an old side, or stands at the end of the old text. */
  ghost predicate Anchored(a: seq<string>, groups: seq<Group>) {
    forall k | 0 <= k < |groups| :: groups[k] != [] && (OldStart(groups[k]) < OldEnd(groups[k]) || OldStart(groups[k]) == |a|)
  }

  ghost function LocatedOf(a: seq<string>, b: seq<string>, groups: seq<Group>): (r: seq<Located>)
    requires Chained(a, b, groups)
    ensures |r| == |groups|
    ensures forall k | 0 <= k < |r| :: groups[k] != [] && r[k].0 == OldStart(groups[k])
  {
    if groups == [] then []
    else
      assert Chain(a, b, groups[0]);
      SidesOfGroup(a, b, groups[0]);
      [(OldStart(groups[0]), HunkOf(a, b, groups[0]))] + LocatedOf(a, b, groups[1..])
  }

  /** All printed hunks are located where they belong if and only if each has an old side or stands at the
      end of the old text. */
  lemma {:induction false} AllLocatedIff(a: seq<string>, b: seq<string>, groups: seq<Group>, fuzz: nat)
    requires Chained(a, b, groups)
    ensures LocateAll(a, HunksOf(a, b, groups), fuzz) == Success(LocatedOf(a, b, groups)) <==> Anchored(a, groups)
  {
    if groups != [] {
      var g, rest := groups[0], groups[1..];
      assert Chain(a, b, g);
      SidesOfGroup(a, b, g);
      LocatedIff(a, b, g, fuzz);
      AllLocatedIff(a, b, rest, fuzz);
      AnchoredSplit(a, groups);
      LocateStep(a, HunkOf(a, b, g), HunksOf(a, b, rest), OldStart(g), LocatedOf(a, b, rest), fuzz);
    }
  }

  lemma {:induction false} LocateStep(lines: seq<string>, hunk: Hunk, hunks: seq<Hunk>, at: nat, rest: seq<Located>, fuzz: nat)
    ensures LocateAll(lines, [hunk] + hunks, fuzz) == Success([(at, hunk)] + rest) <==>
            Locate(lines, hunk, fuzz) == Some(at) && LocateAll(lines, hunks, fuzz) == Success(rest)
  {
    var all := [hunk] + hunks;
    assert all[0] == hunk && all[1..] == hunks;
    if LocateAll(lines, all, fuzz) == Success([(at, hunk)] + rest) {
      assert ([(at, hunk)] + rest)[1..] == rest;
      assert ([(Locate(lines, hunk, fuzz).value, hunk)] + LocateAll(lines, hunks, fuzz).value)[1..] == LocateAll(lines, hunks, fuzz).value;
    }
  }

  lemma {:induction false} AnchoredSplit(a: seq<string>, groups: seq<Group>)
    requires groups != [] && groups[0] != []
    ensures Anchored(a, groups) <==>
            (OldStart(groups[0]) < OldEnd(groups[0]) || OldStart(groups[0]) == |a|) && Anchored(a, groups[1..])
  {
    if Anchored(a, groups) { forall k | 0 <= k < |groups| - 1 ensures groups[1..][k] == groups[k + 1] {} }
    if Anchored(a, groups[1..]) {
      forall k | 0 < k < |groups| ensures groups[k] != [] && (OldStart(groups[k]) < OldEnd(groups[k]) || OldStart(groups[k]) == |a|) {
        assert groups[k] == groups[1..][k - 1];
      }
    }
  }

  lemma {:induction false} InsertFirst(sorted: seq<Located>, item: Located)
    requires Descending(sorted)
    requires forall k | 0 <= k < |sorted| :: sorted[k].0 < item.0
    ensures InsertDescending(sorted, item) == [item] + sorted
  {
    if sorted != [] {
      InsertFirst(sorted[..|sorted| - 1], item);
      assert [item] + sorted == [item] + sorted[..|sorted| - 1] + [sorted[|sorted| - 1]];
    } else {
      assert sorted + [item] == [item] + sorted;
    }
  }

  lemma {:induction false} ReversedStep(items: seq<Located>)
    requires items != []
    ensures Reversed(items) == [items[|items| - 1]] + Reversed(items[..|items| - 1])
  {
  }

  ghost predicate Increasing(items: seq<Located>) {
    forall i, j | 0 <= i < j < |items| :: items[i].0 < items[j].0
  }

  lemma {:induction false} LastIsGreatest(items: seq<Located>)
    requires Increasing(items) && items != []
    ensures Increasing(items[..|items| - 1])
    ensures var reversed := Reversed(items[..|items| - 1]);
            && (forall k | 0 <= k < |reversed| :: reversed[k].0 < items[|items| - 1].0)
            && Descending(reversed)
  {
  }

  lemma {:induction false} IncreasingIsReversed(items: seq<Located>)
    requires Increasing(items)
    ensures SortDescending(items) == Reversed(items)
  {
    if items != [] {
      var front, last := items[..|items| - 1], items[|items| - 1];
      LastIsGreatest(items);
      IncreasingIsReversed(front);
      InsertFirst(Reversed(front), last);
      ReversedStep(items);
    }
  }

  lemma {:induction false} SpliceLast(lines: seq<string>, order: seq<Located>, item: Located)
    ensures SpliceAll(lines, order + [item])
         == Splice(SpliceAll(lines, order), item.0, item.0 + |item.1.oldLines|, item.1.newLines)
    decreases |order|
  {
    if order == [] {
      assert order + [item] == [item] && [item][1..] == [];
    } else {
      assert (order + [item])[1..] == order[1..] + [item];
      var (at, hunk) := order[0];
      SpliceLast(Splice(lines, at, at + |hunk.oldLines|, hunk.newLines), order[1..], item);
    }
  }

  lemma {:induction false} TilesChained(a: seq<string>, b: seq<string>, groups: seq<Group>, i: nat, j: nat)
    requires i <= |a| && j <= |b| && Tiles(a, b, groups, i, j)
    ensures Chained(a, b, groups)
  {
    if groups != [] {
      TilesChained(a, b, groups[1..], OldEnd(groups[0]), NewEnd(groups[0]));
      forall k | 0 <= k < |groups| ensures Chain(a, b, groups[k]) {
        if k > 0 { assert groups[k] == groups[1..][k - 1]; }
      }
    }
  }

  lemma {:induction false} TilesIncrease(a: seq<string>, b: seq<string>, groups: seq<Group>, i: nat, j: nat)
    requires i <= |a| && j <= |b| && Tiles(a, b, groups, i, j) && Chained(a, b, groups)
    ensures forall k | 0 <= k < |groups| :: groups[k] != [] && i <= OldStart(groups[k])
    ensures forall k, n | 0 <= k < n < |groups| :: OldStart(groups[k]) < OldStart(groups[n])
  {
    if groups != [] {
      var rest := groups[1..];
      assert Chain(a, b, groups[0]);
      TilesIncrease(a, b, rest, OldEnd(groups[0]), NewEnd(groups[0]));
      if rest != [] {
        assert Chain(a, b, groups[1]);
        assert OldEnd(groups[0]) < OldStart(rest[0]);
      }
      forall k | 0 < k < |groups| ensures groups[k] != [] && OldStart(groups[0]) < OldStart(groups[k]) {
        assert groups[k] == rest[k - 1];
        if k > 1 { assert OldStart(rest[0]) < OldStart(rest[k - 1]); }
      }
      forall k, n | 0 <= k < n < |groups| ensures OldStart(groups[k]) < OldStart(groups[n]) {
        if k > 0 { assert groups[k] == rest[k - 1] && groups[n] == rest[n - 1]; }
      }
    }
  }

  lemma {:induction false} ReversedCons(item: Located, items: seq<Located>)
    ensures Reversed([item] + items) == Reversed(items) + [item]
  {
  }

  /** Back to front, the hunks turn the old lines into the new ones. */
  lemma {:induction false} SplicedBackwards(a: seq<string>, b: seq<string>, groups: seq<Group>, i: nat, j: nat)
    requires i <= |a| && j <= |b| && Tiles(a, b, groups, i, j) && Chained(a, b, groups)
    ensures SpliceAll(a, Reversed(LocatedOf(a, b, groups))) == a[..i] + b[j..]
  {
    var located := LocatedOf(a, b, groups);
    if groups == [] {
      assert Reversed(located) == [];
    } else {
      var g, rest := groups[0], groups[1..];
      assert Chain(a, b, g);
      SidesOfGroup(a, b, g);
      SplicedBackwards(a, b, rest, OldEnd(g), NewEnd(g));
      ReversedCons(located[0], LocatedOf(a, b, rest));
      SpliceLast(a, Reversed(LocatedOf(a, b, rest)), located[0]);
      SpliceTile(a, b, i, j, OldStart(g), OldEnd(g), NewStart(g), NewEnd(g));
    }
  }

  lemma {:induction false} SpliceTile(a: seq<string>, b: seq<string>, i: nat, j: nat, i1: nat, i2: nat, j1: nat, j2: nat)
    requires i <= i1 <= i2 <= |a| && j <= j1 <= j2 <= |b| && a[i..i1] == b[j..j1]
    ensures Splice(a[..i2] + b[j2..], i1, i1 + (i2 - i1), b[j1..j2]) == a[..i] + b[j..]
  {
    var cur := a[..i2] + b[j2..];
    assert cur[..i1] == a[..i] + a[i..i1];
    assert cur[i2..] == b[j2..];
    assert b[j..] == b[j..j1] + b[j1..j2] + b[j2..];
    assert a[..i] + b[j..j1] + b[j1..j2] + b[j2..] == a[..i] + (b[j..j1] + b[j1..j2] + b[j2..]);
  }

  /**
   Printing any edit script from `a` to `b`, reading the patch and applying it gives `b`, provided no
   printed line is a trap and each hunk has an old side or stands at the end.
   */
  lemma {:induction false} RoundTrip(a: seq<string>, b: seq<string>, groups: seq<Group>, path: string, fuzz: nat)
    requires Tiles(a, b, groups, 0, 0) && Chained(a, b, groups)
    requires NoTraps(a, b, groups) && Anchored(a, groups)
    ensures Patched(a, Scan(PatchLines(a, b, groups, path)), fuzz) == Success(b)
  {
    ReadsBackIff(a, b, groups, path);
    AllLocatedIff(a, b, groups, fuzz);
    TilesIncrease(a, b, groups, 0, 0);
    IncreasingIsReversed(LocatedOf(a, b, groups));
    SplicedBackwards(a, b, groups, 0, 0);
    assert a[..0] + b[0..] == b;
  }

  /** A hunk that only inserts, before the end, lands one line too low: it gives the new lines only when
      the inserted lines commute with the line they jump over. */
  lemma {:induction false} PureInsertionIff(a: seq<string>, b: seq<string>, g: Group, fuzz: nat)
    requires Tiles(a, b, [g], 0, 0) && Chain(a, b, g) && OldStart(g) == OldEnd(g) < |a|
    requires OldEnd(g) <= |a| && NewStart(g) <= NewEnd(g) <= |b|
    ensures var news := b[NewStart(g)..NewEnd(g)];
            Patched(a, [HunkOf(a, b, g)], fuzz) == Success(b) <==> [a[OldStart(g)]] + news == news + [a[OldStart(g)]]
  {
    var hunk := HunkOf(a, b, g);
    var i, news := OldStart(g), b[NewStart(g)..NewEnd(g)];
    assert [g][1..] == [];
    PatchOne(a, hunk, i + 1, fuzz);
    var got := Splice(a, i + 1, i + 1, news);
    assert a[i..] == b[NewEnd(g)..];
    assert got == a[..i] + ([a[i]] + news) + a[i + 1..];
    assert b == a[..i] + (news + [a[i]]) + a[i + 1..] by {
      assert b == b[..NewStart(g)] + news + b[NewEnd(g)..];
      assert a[i..] == [a[i]] + a[i + 1..];
      assert b[..NewStart(g)] == b[0..NewStart(g)] == a[0..i] == a[..i];
    }
    SameMiddle(a[..i], [a[i]] + news, news + [a[i]], a[i + 1..]);
  }

  lemma {:induction false} SortOne(item: Located)
    ensures SortDescending([item]) == [item]
  {
    var nothing: seq<Located> := [];
    assert [item][..0] == nothing && nothing + [item] == [item];
    assert SortDescending(nothing) == nothing;
    assert InsertDescending(nothing, item) == nothing + [item];
  }

  lemma {:induction false} PatchOne(a: seq<string>, hunk: Hunk, at: nat, fuzz: nat)
    requires Locate(a, hunk, fuzz) == Some(at)
    ensures Patched(a, [hunk], fuzz) == Success(Splice(a, at, at + |hunk.oldLines|, hunk.newLines))
  {
    var item := (at, hunk);
    var nothing: seq<Located> := [];
    assert [hunk][1..] == [] && LocateAll(a, [hunk][1..], fuzz) == Success(nothing);
    assert LocateAll(a, [hunk], fuzz) == Success([item]) by { assert [item] + nothing == [item]; }
    SortOne(item);
    SpliceLast(a, nothing, item);
    assert nothing + [item] == [item] && SpliceAll(a, nothing) == a;
  }
}
