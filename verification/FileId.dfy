/**
 Reading and writing source files in runtime/tools/fileid.py: newline style, byte-order mark and final
 newline are taken off a file when it is read and put back when it is written.

 Valid UTF-8 data is modelled by the characters it encodes.
 */
module FileId {
  import opened Lines
  import opened Wrappers

  const BOM := '\U{FEFF}'

  datatype Newline = Lf | Cr | CrLf

  datatype Data = Utf8(chars: string) | Malformed

  datatype Source = Source(text: string, newline: Newline, bom: bool, trailing: bool)

  function Mark(n: Newline): string {
    match n
    case Lf => "\n"
    case Cr => "\r"
    case CrLf => "\r\n"
  }

  /****** Counting and replacing ******/

  predicate StartsCrLf(s: string) {
    |s| >= 2 && s[0] == '\r' && s[1] == '\n'
  }

  function CountCrLf(s: string): nat {
    if s == "" then 0
    else if StartsCrLf(s) then 1 + CountCrLf(s[2..]) else CountCrLf(s[1..])
  }

  /** `s.replace("\r\n", put)` */
  function ReplaceCrLf(s: string, put: string): string {
    if s == "" then ""
    else if StartsCrLf(s) then put + ReplaceCrLf(s[2..], put) else [s[0]] + ReplaceCrLf(s[1..], put)
  }

  /** `s.replace(c, put)` */
  function ReplaceChar(s: string, c: char, put: string): string {
    if s == "" then "" else (if s[0] == c then put else [s[0]]) + ReplaceChar(s[1..], c, put)
  }

  function CountChar(s: string, c: char): nat {
    if s == "" then 0 else (if s[0] == c then 1 else 0) + CountChar(s[1..], c)
  }

  /** The commonest style, ties going to CRLF and then to LF. */
  function DetectNewline(data: string): Newline {
    var crlf := CountCrLf(data);
    var stripped := ReplaceCrLf(data, "");
    var cr, lf := CountChar(stripped, '\r'), CountChar(stripped, '\n');
    if crlf >= cr && crlf >= lf && crlf > 0 then CrLf
    else if cr > lf then Cr
    else Lf
  }

  /** A line break of the style ends at position `k`. */
  predicate BreaksAt(s: string, style: Newline, k: nat)
    requires k < |s|
  {
    match style
    case CrLf => k > 0 && s[k - 1] == '\r' && s[k] == '\n'
    case Lf => s[k] == '\n' && (k == 0 || s[k - 1] != '\r')
    case Cr => s[k] == '\r' && (k + 1 == |s| || s[k + 1] != '\n')
  }

  /** The breaks of one style from position `k` on. */
  function BreaksFrom(s: string, style: Newline, k: nat): nat
    requires k <= |s|
    decreases |s| - k
  {
    if k == |s| then 0 else (if BreaksAt(s, style, k) then 1 else 0) + BreaksFrom(s, style, k + 1)
  }

  lemma {:induction false} CountsAreBreaks(s: string, k: nat)
    requires k <= |s| && (0 < k < |s| ==> !(s[k - 1] == '\r' && s[k] == '\n'))
    ensures CountCrLf(s[k..]) == BreaksFrom(s, CrLf, k)
    ensures CountChar(ReplaceCrLf(s[k..], ""), '\r') == BreaksFrom(s, Cr, k)
    ensures CountChar(ReplaceCrLf(s[k..], ""), '\n') == BreaksFrom(s, Lf, k)
    decreases |s| - k
  {
    if k < |s| {
      if StartsCrLf(s[k..]) {
        assert s[k..][2..] == s[k + 2..];
        CountsAreBreaks(s, k + 2);
        assert BreaksFrom(s, CrLf, k) == 1 + BreaksFrom(s, CrLf, k + 2);
        assert "" + ReplaceCrLf(s[k + 2..], "") == ReplaceCrLf(s[k + 2..], "");
      } else {
        assert s[k..][1..] == s[k + 1..];
        CountsAreBreaks(s, k + 1);
        CountFirst(s[k], ReplaceCrLf(s[k + 1..], ""));
      }
    }
  }

  lemma {:induction false} CountFirst(c: char, rest: string)
    ensures forall d :: CountChar([c] + rest, d) == (if c == d then 1 else 0) + CountChar(rest, d)
  {
    assert ([c] + rest)[1..] == rest;
  }

  /** The style found is that of most breaks; CRLF wins a tie, and LF one with CR. */
  lemma {:induction false} DetectMeans(s: string)
    ensures var crlf, cr, lf := BreaksFrom(s, CrLf, 0), BreaksFrom(s, Cr, 0), BreaksFrom(s, Lf, 0);
            && (DetectNewline(s) == CrLf <==> crlf > 0 && crlf >= cr && crlf >= lf)
            && (DetectNewline(s) == Cr <==> cr > crlf && cr > lf)
  {
    CountsAreBreaks(s, 0);
    assert s[0..] == s;
  }

  function Normalize(s: string): string {
    ReplaceChar(ReplaceCrLf(s, "\n"), '\r', "\n")
  }

  predicate EndsWithBreak(s: string) {
    s != "" && (s[|s| - 1] == '\n' || s[|s| - 1] == '\r')
  }

  predicate HasBom(s: string) {
    s != "" && s[0] == BOM
  }

  function DecodeChars(chars: string): Source {
    var body := if HasBom(chars) then chars[1..] else chars;
    Source(Normalize(body), DetectNewline(chars), HasBom(chars), EndsWithBreak(chars))
  }

  datatype DecodeError = NotUtf8

  function Decode(data: Data): Result<Source, DecodeError> {
    if data.Malformed? then Failure(NotUtf8) else Success(DecodeChars(data.chars))
  }

  /** The final-newline rule. */
  function Adjust(trailing: bool, text: string): string {
    if trailing then
      if text == "" then "\n" else if EndsWithNewline(text) then text else text + "\n"
    else if EndsWithNewline(text) then text[..|text| - 1]
    else text
  }

  function Expand(src: Source, text: string): string {
    var body := ReplaceChar(text, '\n', Mark(src.newline));
    if src.bom then [BOM] + body else body
  }

  function Render(src: Source, newText: string): string {
    Expand(src, Adjust(src.trailing, Normalize(newText)))
  }

  /****** One newline style ******/

  ghost predicate Without(s: string, c: char) {
    forall k | 0 <= k < |s| :: s[k] != c
  }

  /** Carriage returns and line feeds come in CRLF pairs only. */
  predicate OnlyPairs(s: string) {
    if s == "" then true
    else if StartsCrLf(s) then OnlyPairs(s[2..])
    else s[0] != '\r' && s[0] != '\n' && OnlyPairs(s[1..])
  }

  ghost predicate OneStyle(s: string) {
    Without(s, '\r') || Without(s, '\n') || OnlyPairs(s)
  }

  lemma {:induction false} ReplaceNothing(s: string, c: char, put: string)
    requires Without(s, c)
    ensures ReplaceChar(s, c, put) == s && CountChar(s, c) == 0
  {
    if s != "" { ReplaceNothing(s[1..], c, put); }
  }

  lemma {:induction false} NoPairs(s: string, put: string)
    requires Without(s, '\r') || Without(s, '\n')
    ensures ReplaceCrLf(s, put) == s && CountCrLf(s) == 0
  {
    if s != "" { NoPairs(s[1..], put); }
  }

  lemma {:induction false} ReplaceRemoves(s: string, c: char, put: string)
    requires Without(put, c)
    ensures Without(ReplaceChar(s, c, put), c)
    ensures forall d | Without(s, d) && Without(put, d) :: Without(ReplaceChar(s, c, put), d)
  {
    if s != "" {
      ReplaceRemoves(s[1..], c, put);
      forall d | Without(s, d) && Without(put, d) ensures Without(ReplaceChar(s, c, put), d) {
        assert Without(s[1..], d);
      }
    }
  }

  /** Replacing one character by another that does not occur can be undone. */
  lemma {:induction false} SwapBack(s: string, c: char, d: char)
    requires Without(s, d)
    ensures ReplaceChar(ReplaceChar(s, c, [d]), d, [c]) == s
  {
    if s != "" {
      SwapBack(s[1..], c, d);
      var head := if s[0] == c then [d] else [s[0]];
      assert ReplaceChar(s, c, [d])[1..] == ReplaceChar(s[1..], c, [d]);
    }
  }

  lemma {:induction false} PairBack(s: string)
    requires Without(s, '\r')
    ensures ReplaceCrLf(ReplaceChar(s, '\n', "\r\n"), "\n") == s
    ensures OnlyPairs(ReplaceChar(s, '\n', "\r\n"))
  {
    if s != "" {
      PairBack(s[1..]);
      var out, rest := ReplaceChar(s, '\n', "\r\n"), ReplaceChar(s[1..], '\n', "\r\n");
      if s[0] == '\n' {
        assert out[2..] == rest && StartsCrLf(out);
      } else {
        assert out[1..] == rest && !StartsCrLf(out);
      }
    }
  }

  lemma {:induction false} UnpairBack(s: string)
    requires OnlyPairs(s)
    ensures Without(ReplaceCrLf(s, "\n"), '\r')
    ensures ReplaceChar(ReplaceCrLf(s, "\n"), '\n', "\r\n") == s
    ensures Without(ReplaceCrLf(s, ""), '\r') && Without(ReplaceCrLf(s, ""), '\n')
    ensures CountCrLf(s) == 0 ==> Without(s, '\r') && Without(s, '\n')
  {
    if s != "" {
      var out := ReplaceCrLf(s, "\n");
      if StartsCrLf(s) {
        UnpairBack(s[2..]);
        assert out[1..] == ReplaceCrLf(s[2..], "\n");
        assert s == "\r\n" + s[2..];
      } else {
        UnpairBack(s[1..]);
        assert out[1..] == ReplaceCrLf(s[1..], "\n");
      }
    }
  }

  /** The text handed to the tools has no carriage return. */
  lemma {:induction false} NormalizedHasNoReturn(s: string)
    ensures Without(Normalize(s), '\r')
  {
    ReplaceRemoves(ReplaceCrLf(s, "\n"), '\r', "\n");
  }

  lemma {:induction false} NormalizeTwice(s: string)
    requires Without(s, '\r')
    ensures Normalize(s) == s
  {
    NoPairs(s, "\n");
    ReplaceNothing(s, '\r', "\n");
  }

  /** Writing lines in any style and reading them back. */
  lemma {:induction false} NormalizeExpanded(text: string, n: Newline)
    requires Without(text, '\r')
    ensures var body := ReplaceChar(text, '\n', Mark(n));
            Normalize(body) == text && OneStyle(body)
  {
    var body := ReplaceChar(text, '\n', Mark(n));
    match n
    case Lf => SameMark(text); NormalizeTwice(text);
    case Cr =>
      ReplaceRemoves(text, '\n', "\r");
      NoPairs(body, "\n");
      SwapBack(text, '\n', '\r');
    case CrLf =>
      PairBack(text);
      ReplaceNothing(text, '\r', "\n");
  }

  lemma {:induction false} SameMark(s: string)
    ensures ReplaceChar(s, '\n', "\n") == s
  {
    if s != "" { SameMark(s[1..]); }
  }

  /****** What is detected ******/

  lemma {:induction false} CountPresent(s: string, c: char)
    ensures CountChar(s, c) == 0 <==> Without(s, c)
  {
    if s != "" {
      CountPresent(s[1..], c);
      if Without(s[1..], c) && s[0] != c { assert forall k | 0 < k < |s| :: s[k] == s[1..][k - 1]; }
    }
  }

  /** On data with one style, that style is detected; data without a break counts as LF. */
  lemma {:induction false} DetectsTheStyle(s: string)
    ensures Without(s, '\r') ==> DetectNewline(s) == Lf
    ensures Without(s, '\n') && !Without(s, '\r') ==> DetectNewline(s) == Cr
    ensures OnlyPairs(s) && !Without(s, '\r') ==> DetectNewline(s) == CrLf
  {
    if Without(s, '\r') || Without(s, '\n') {
      NoPairs(s, "");
      CountPresent(s, '\r');
      CountPresent(s, '\n');
    }
    if OnlyPairs(s) {
      UnpairBack(s);
      CountPresent(ReplaceCrLf(s, ""), '\r');
      CountPresent(ReplaceCrLf(s, ""), '\n');
    }
  }

  /****** Reading and writing back ******/

  lemma {:induction false} BodyStyle(chars: string)
    requires HasBom(chars)
    ensures OnlyPairs(chars) <==> OnlyPairs(chars[1..])
    ensures forall c | c != BOM :: Without(chars, c) <==> Without(chars[1..], c)
  {
    assert chars[0] == BOM && !StartsCrLf(chars);
    forall c | c != BOM ensures Without(chars, c) <==> Without(chars[1..], c) {
      assert forall k | 0 < k < |chars| :: chars[k] == chars[1..][k - 1];
    }
  }

  lemma {:induction false} EndAfterReplace(s: string)
    ensures EndsWithNewline(Normalize(s)) <==> EndsWithBreak(s)
    ensures Normalize(s) == "" <==> s == ""
  {
    PairsEnd(s);
    CharsEnd(ReplaceCrLf(s, "\n"));
  }

  lemma {:induction false} PairsEnd(s: string)
    ensures var out := ReplaceCrLf(s, "\n"); (out == "" <==> s == "") && (EndsWithBreak(out) <==> EndsWithBreak(s))
  {
    if s != "" {
      var k := if StartsCrLf(s) then 2 else 1;
      PairsEnd(s[k..]);
      var rest := ReplaceCrLf(s[k..], "\n");
      var out := ReplaceCrLf(s, "\n");
      assert out[1..] == rest;
      if s[k..] != "" {
        assert out[|out| - 1] == rest[|rest| - 1] && s[|s| - 1] == s[k..][|s| - k - 1];
      } else {
        assert |out| == 1;
      }
    }
  }

  lemma {:induction false} CharsEnd(s: string)
    ensures var out := ReplaceChar(s, '\r', "\n"); |out| == |s| && (EndsWithNewline(out) <==> EndsWithBreak(s))
  {
    if s != "" {
      CharsEnd(s[1..]);
      var out, rest := ReplaceChar(s, '\r', "\n"), ReplaceChar(s[1..], '\r', "\n");
      assert out[1..] == rest;
      if rest != "" {
        assert out[|out| - 1] == rest[|rest| - 1] && s[|s| - 1] == s[1..][|s| - 2];
      }
    }
  }

  /** Reading a file and writing the same text: what comes out is the body in the detected style. */
  lemma {:induction false} RereadBody(chars: string)
    ensures var src := DecodeChars(chars);
            && Adjust(src.trailing, Normalize(src.text)) == src.text
            && Render(src, src.text) == Expand(src, src.text)
  {
    var body := if HasBom(chars) then chars[1..] else chars;
    NormalizedHasNoReturn(body);
    NormalizeTwice(Normalize(body));
    EndAfterReplace(body);
    if HasBom(chars) && body != "" { assert body[|body| - 1] == chars[|chars| - 1]; }
  }

  lemma {:induction false} StyleOfBody(body: string, n: Newline)
    ensures ReplaceChar(Normalize(body), '\n', Mark(n)) == body <==>
            match n
            case Lf => Without(body, '\r')
            case Cr => Without(body, '\n')
            case CrLf => OnlyPairs(body)
  {
    var text := Normalize(body);
    NormalizedHasNoReturn(body);
    match n
    case Lf =>
      SameMark(text);
      if Without(body, '\r') { NormalizeTwice(body); }
    case Cr =>
      ReplaceRemoves(text, '\n', "\r");
      if Without(body, '\n') {
        NoPairs(body, "\n");
        SwapBack(body, '\r', '\n');
      }
    case CrLf =>
      PairBack(text);
      if OnlyPairs(body) {
        UnpairBack(body);
        ReplaceNothing(ReplaceCrLf(body, "\n"), '\r', "\n");
      }
  }

  /** Reading a file and writing it back changes nothing exactly when it uses one newline style. */
  lemma {:induction false} RoundTripIff(chars: string)
    ensures Decode(Utf8(chars)).Success?
    ensures Render(DecodeChars(chars), DecodeChars(chars).text) == chars <==> OneStyle(chars)
  {
    var src := DecodeChars(chars);
    var body := if HasBom(chars) then chars[1..] else chars;
    RereadBody(chars);
    StyleOfBody(body, src.newline);
    if HasBom(chars) { BodyStyle(chars); }
    assert Render(src, src.text) == chars <==> ReplaceChar(Normalize(body), '\n', Mark(src.newline)) == body by {
      if src.bom {
        assert chars == [BOM] + body;
        assert Render(src, src.text)[1..] == ReplaceChar(src.text, '\n', Mark(src.newline));
      }
    }
    DetectsTheStyle(chars);
    if OnlyPairs(chars) && Without(chars, '\r') { PairsNeedReturns(chars); }
  }

  lemma {:induction false} PairsNeedReturns(s: string)
    requires OnlyPairs(s) && Without(s, '\r')
    ensures Without(s, '\n')
  {
    if s != "" {
      PairsNeedReturns(s[1..]);
      assert forall k | 0 < k < |s| :: s[k] == s[1..][k - 1];
    }
  }

  /****** Writing an edit and reading it back ******/

  lemma {:induction false} AdjustKeepsStyle(trailing: bool, text: string)
    requires Without(text, '\r')
    ensures Without(Adjust(trailing, text), '\r')
  {
  }

  lemma {:induction false} LastOfExpanded(text: string, n: Newline)
    requires Without(text, '\r')
    ensures var body := ReplaceChar(text, '\n', Mark(n));
            (body == "" <==> text == "") && (EndsWithBreak(body) <==> EndsWithNewline(text))
    ensures Without(text, '\n') ==> ReplaceChar(text, '\n', Mark(n)) == text
  {
    NormalizeExpanded(text, n);
    EndAfterReplace(ReplaceChar(text, '\n', Mark(n)));
    if Without(text, '\n') { ReplaceNothing(text, '\n', Mark(n)); }
  }

  lemma {:induction false} BomOfExpanded(text: string, n: Newline)
    ensures HasBom(ReplaceChar(text, '\n', Mark(n))) <==> HasBom(text)
  {
  }

  lemma {:induction false} StyleOfExpanded(text: string, n: Newline)
    requires Without(text, '\r') && !Without(text, '\n')
    ensures var body := ReplaceChar(text, '\n', Mark(n));
            match n
            case Lf => Without(body, '\r')
            case Cr => Without(body, '\n') && !Without(body, '\r')
            case CrLf => OnlyPairs(body) && !Without(body, '\r')
  {
    var body := ReplaceChar(text, '\n', Mark(n));
    NormalizeExpanded(text, n);
    match n
    case Lf => SameMark(text);
    case Cr =>
      ReplaceRemoves(text, '\n', "\r");
      if Without(body, '\r') { NormalizeTwice(body); }
    case CrLf =>
      PairBack(text);
      if Without(body, '\r') { NormalizeTwice(body); PairsNeedReturns(body); }
  }

  /**
   Writing an edited text and reading the file again gives the text back, up to the final-newline rule,
   and the same byte-order mark, exactly when no new mark is made up: a file without one must not get a
   text that starts with U+FEFF.
   */
  lemma {:induction false} RereadIff(src: Source, newText: string)
    ensures var text := Adjust(src.trailing, Normalize(newText));
            var again := DecodeChars(Render(src, newText));
            again.text == text && again.bom == src.bom <==> src.bom || !HasBom(text)
  {
    var text := Adjust(src.trailing, Normalize(newText));
    var data := Render(src, newText);
    var body := ReplaceChar(text, '\n', Mark(src.newline));
    NormalizedHasNoReturn(newText);
    AdjustKeepsStyle(src.trailing, Normalize(newText));
    NormalizeExpanded(text, src.newline);
    BomOfExpanded(text, src.newline);
    if src.bom { assert data[1..] == body; }
  }

  /** The newline style survives while any newline is left, and every written file has one style. */
  lemma {:induction false} StyleSurvives(src: Source, newText: string)
    ensures var text := Adjust(src.trailing, Normalize(newText));
            var again := DecodeChars(Render(src, newText));
            again.newline == if Without(text, '\n') then Lf else src.newline
    ensures OneStyle(Render(src, newText))
  {
    var text := Adjust(src.trailing, Normalize(newText));
    var data := Render(src, newText);
    var body := ReplaceChar(text, '\n', Mark(src.newline));
    NormalizedHasNoReturn(newText);
    AdjustKeepsStyle(src.trailing, Normalize(newText));
    NormalizeExpanded(text, src.newline);
    LastOfExpanded(text, src.newline);
    if !Without(text, '\n') { StyleOfExpanded(text, src.newline); }
    if src.bom {
      assert data[1..] == body && HasBom(data);
      BodyStyle(data);
    }
    DetectsTheStyle(data);
  }

  predicate EndsTwice(text: string) {
    |text| >= 2 && text[|text| - 1] == '\n' && text[|text| - 2] == '\n'
  }

  lemma {:induction false} AdjustEnds(trailing: bool, text: string)
    ensures EndsWithNewline(Adjust(trailing, text)) == trailing <==> trailing || !EndsTwice(text)
  {
  }

  /** Whether the file ends with a newline survives too, except that two newlines at the end of a text
      for a file that had none become one. */
  lemma {:induction false} FinalNewlineSurvivesIff(src: Source, newText: string)
    ensures var text := Normalize(newText);
            var again := DecodeChars(Render(src, newText));
            again.trailing == src.trailing <==>
            src.trailing || !EndsTwice(text)
  {
    AdjustEnds(src.trailing, Normalize(newText));
    var text := Adjust(src.trailing, Normalize(newText));
    var data := Render(src, newText);
    var body := ReplaceChar(text, '\n', Mark(src.newline));
    NormalizedHasNoReturn(newText);
    AdjustKeepsStyle(src.trailing, Normalize(newText));
    LastOfExpanded(text, src.newline);
    if src.bom {
      if body != "" { assert data[|data| - 1] == body[|body| - 1]; } else { assert data == [BOM]; }
    }
  }
}
