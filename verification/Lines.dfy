/** `str.splitlines` and the joining of lines, as the edit tools use them. */
module Lines {
  predicate IsBreak(c: char) {
    c in {'\n', '\r', '\U{b}', '\U{c}', '\U{1c}', '\U{1d}', '\U{1e}', '\U{85}', '\U{2028}', '\U{2029}'}
  }

  ghost predicate NoBreak(s: string) {
    forall k | 0 <= k < |s| :: !IsBreak(s[k])
  }

  /** Every line break is a plain newline. */
  ghost predicate Clean(s: string) {
    forall k | 0 <= k < |s| && IsBreak(s[k]) :: s[k] == '\n'
  }

  predicate EndsWithNewline(s: string) {
    s != "" && s[|s| - 1] == '\n'
  }

  /** The length of the first line, its break included. */
  function FirstLine(s: string): (n: nat)
    requires s != ""
    ensures 1 <= n <= |s|
    ensures forall k | 0 <= k < n - 1 && IsBreak(s[k]) :: s[k] == '\r'
    ensures n < |s| ==> IsBreak(s[n - 1])
  {
    if IsBreak(s[0]) then
      if s[0] == '\r' && |s| > 1 && s[1] == '\n' then 2 else 1
    else if |s| == 1 then 1
    else 1 + FirstLine(s[1..])
  }

  /** `splitlines(keepends=True)` */
  function Split(s: string): (lines: seq<string>)
    ensures s == "" <==> lines == []
  {
    if s == "" then [] else [s[..FirstLine(s)]] + Split(s[FirstLine(s)..])
  }

  /** A line without its break. */
  function Chomp(line: string): (body: string)
    ensures body <= line
  {
    if line == "" || !IsBreak(line[|line| - 1]) then line
    else if |line| >= 2 && line[|line| - 2] == '\r' && line[|line| - 1] == '\n' then line[..|line| - 2]
    else line[..|line| - 1]
  }

  /** `splitlines()` */
  function Bodies(s: string): (bodies: seq<string>)
    ensures s == "" <==> bodies == []
  {
    if s == "" then [] else [Chomp(s[..FirstLine(s)])] + Bodies(s[FirstLine(s)..])
  }

  function Concat(lines: seq<string>): string {
    if lines == [] then "" else lines[0] + Concat(lines[1..])
  }

  /** `"\n".join(lines)` */
  function Join(lines: seq<string>): string {
    if lines == [] then ""
    else if |lines| == 1 then lines[0]
    else lines[0] + "\n" + Join(lines[1..])
  }

  /** Every line followed by a newline. */
  function Unlines(lines: seq<string>): string {
    if lines == [] then "" else lines[0] + "\n" + Unlines(lines[1..])
  }

  lemma {:induction false} ConcatCons(line: string, lines: seq<string>)
    ensures Concat([line] + lines) == line + Concat(lines)
    ensures Unlines([line] + lines) == line + "\n" + Unlines(lines)
    ensures lines != [] ==> Join([line] + lines) == line + "\n" + Join(lines)
    ensures Join([line]) == line
  {
    assert ([line] + lines)[1..] == lines;
  }

  lemma {:induction false} SplitLosesNothing(s: string)
    ensures Concat(Split(s)) == s
  {
    if s != "" {
      var n := FirstLine(s);
      var line, rest := s[..n], s[n..];
      SplitLosesNothing(rest);
      ConcatCons(line, Split(rest));
      assert s == line + rest;
    }
  }

  lemma {:induction false} FirstLineOf(body: string, rest: string)
    requires NoBreak(body)
    ensures FirstLine(body + "\n" + rest) == |body| + 1
  {
    var s := body + "\n" + rest;
    if body == "" {
      assert s[0] == '\n';
    } else {
      assert s[0] == body[0];
      assert s[1..] == body[1..] + "\n" + rest;
      assert NoBreak(body[1..]);
      FirstLineOf(body[1..], rest);
    }
  }

  /** The characters at which Python ends a line, by code point. */
  ghost predicate EndsALine(c: char) {
    c as int in {10, 11, 12, 13, 28, 29, 30, 0x85, 0x2028, 0x2029}
  }

  /** Any of these characters ends the first line, and so does a return with the newline after it; both are
      taken off the line. */
  lemma {:induction false} FirstLineEnds(body: string, c: char, rest: string)
    requires (forall k | 0 <= k < |body| :: !EndsALine(body[k])) && EndsALine(c)
    ensures var s := body + [c] + rest;
            var end := if c == '\r' && rest != "" && rest[0] == '\n' then |body| + 2 else |body| + 1;
            FirstLine(s) == end && Chomp(s[..end]) == body
  {
    var s := body + [c] + rest;
    assert s[..|body|] == body;
    if body == "" {
      assert s[0] == c && s[1..] == rest;
    } else {
      LineGoesOn(body, c, rest);
      FirstLineEnds(body[1..], c, rest);
      assert s[|body| - 1] == body[|body| - 1];
    }
  }

  lemma {:induction false} LineGoesOn(body: string, c: char, rest: string)
    requires body != "" && !EndsALine(body[0])
    ensures FirstLine(body + [c] + rest) == 1 + FirstLine(body[1..] + [c] + rest)
  {
    var s := body + [c] + rest;
    assert s[0] == body[0] && s[1..] == body[1..] + [c] + rest;
  }

  /** A text without any of them is one line. */
  lemma {:induction false} OneLine(body: string)
    requires body != "" && forall k | 0 <= k < |body| :: !EndsALine(body[k])
    ensures FirstLine(body) == |body| && Chomp(body) == body
  {
    if |body| > 1 { OneLine(body[1..]); }
  }

  lemma {:induction false} ChompOf(body: string)
    requires NoBreak(body)
    ensures Chomp(body + "\n") == body && Chomp(body) == body
  {
    assert (body + "\n")[..|body|] == body;
  }

  /** Splitting terminated lines gives them back. */
  lemma {:induction false} BodiesOfUnlines(lines: seq<string>)
    requires forall k | 0 <= k < |lines| :: NoBreak(lines[k])
    ensures Bodies(Unlines(lines)) == lines
  {
    if lines != [] {
      var body, rest := lines[0], Unlines(lines[1..]);
      FirstLineOf(body, rest);
      ChompOf(body);
      var s := body + "\n" + rest;
      assert s[..|body| + 1] == body + "\n" && s[|body| + 1..] == rest;
      BodiesOfUnlines(lines[1..]);
    }
  }

  lemma {:induction false} UnlinesConcat(a: seq<string>, b: seq<string>)
    ensures Unlines(a + b) == Unlines(a) + Unlines(b)
  {
    if a == [] {
      assert a + b == b;
    } else {
      UnlinesConcat(a[1..], b);
      assert (a + b)[1..] == a[1..] + b;
      assert a[0] + "\n" + (Unlines(a[1..]) + Unlines(b)) == a[0] + "\n" + Unlines(a[1..]) + Unlines(b);
    }
  }

  lemma {:induction false} CleanFirstLine(s: string)
    requires Clean(s) && s != ""
    ensures var n := FirstLine(s);
            && NoBreak(Chomp(s[..n]))
            && (s[..n] == Chomp(s[..n]) + "\n" || (n == |s| && s[..n] == Chomp(s[..n])))
            && Clean(s[n..])
  {
    var n := FirstLine(s);
    var line := s[..n];
    assert forall k | 0 <= k < n :: line[k] == s[k];
    if IsBreak(line[n - 1]) {
      assert line == line[..n - 1] + "\n";
      assert Chomp(line) == line[..n - 1];
    }
  }

  lemma {:induction false} CleanBodies(s: string)
    requires Clean(s)
    ensures forall k | 0 <= k < |Bodies(s)| :: NoBreak(Bodies(s)[k])
  {
    if s != "" {
      var rest := s[FirstLine(s)..];
      CleanFirstLine(s);
      CleanBodies(rest);
      assert Bodies(s) == [Chomp(s[..FirstLine(s)])] + Bodies(rest);
    }
  }

  lemma {:induction false} Assoc(a: string, b: string, c: string)
    ensures a + (b + c) == a + b + c
  {
  }

  function FinalNewline(s: string): string {
    if EndsWithNewline(s) then "\n" else ""
  }

  lemma {:induction false} JoinStep(s: string, body: string, rest: string, bodies: seq<string>)
    requires rest != "" && bodies != [] && s == body + "\n" + rest
    requires rest == Join(bodies) + FinalNewline(rest)
    ensures s == Join([body] + bodies) + FinalNewline(s)
  {
    ConcatCons(body, bodies);
    assert s[|s| - 1] == rest[|rest| - 1];
    Assoc(body + "\n", Join(bodies), FinalNewline(rest));
  }

  /** A clean text is its lines joined, with the final newline put back. */
  lemma {:induction false} JoinOfBodies(s: string)
    requires Clean(s)
    ensures s == Join(Bodies(s)) + FinalNewline(s)
  {
    if s != "" {
      var n := FirstLine(s);
      if n < |s| {
        CleanFirstLine(s);
        JoinOfBodies(s[n..]);
        JoinMore(s, s[n..]);
      } else {
        JoinSingle(s);
      }
    } else {
      assert "" + "" == "";
    }
  }

  lemma {:induction false} JoinMore(s: string, rest: string)
    requires Clean(s) && s != "" && FirstLine(s) < |s| && rest == s[FirstLine(s)..]
    requires rest == Join(Bodies(rest)) + FinalNewline(rest)
    ensures s == Join(Bodies(s)) + FinalNewline(s)
  {
    var line := s[..FirstLine(s)];
    CleanFirstLine(s);
    assert s == line + rest;
    JoinStep(s, Chomp(line), rest, Bodies(rest));
  }

  lemma {:induction false} JoinSingle(s: string)
    requires Clean(s) && s != "" && FirstLine(s) == |s|
    ensures s == Join(Bodies(s)) + FinalNewline(s)
  {
    CleanFirstLine(s);
    assert s[..|s|] == s && s[|s|..] == "";
    assert Bodies(s) == [Chomp(s)];
    if s == Chomp(s) { assert s + "" == s; }
  }
}
