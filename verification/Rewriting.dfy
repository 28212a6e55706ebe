/**
 The two in-place-looking rewrites of agents/compactor.py that shorten stale messages and keep recent
 ones: `prune_screenshots` and `trim_tool_results`.
 */
module Rewriting {
  import opened History

  const KEEP_FULL_TOOL_RESULTS := 3
  const TRIM_KEEP := 400
  const TRIM_NOTICE := "\n... (trimmed; re-run the tool if you need this again)"
  const SCREENSHOT_KEEP := 2
  const SCREENSHOT_OMIT := "[earlier screenshot omitted]"

  function JoinBlocks(parts: seq<Part>): string {
    if parts == [] then ""
    else if parts[0].Image? then JoinBlocks(parts[1..])
    else if forall k | 1 <= k < |parts| :: parts[k].Image? then parts[0].text
    else parts[0].text + "\n" + JoinBlocks(parts[1..])
  }

  function ContentAsText(content: Content): string {
    match content
    case Absent => ""
    case Text(text) => text
    case Parts(parts) => JoinBlocks(parts)
  }

  /** The characters `str.strip` removes. */
  predicate IsSpace(c: char) {
    var n := c as int;
    9 <= n <= 13 || 28 <= n <= 32 || n == 0x85 || n == 0xa0 || n == 0x1680 || 0x2000 <= n <= 0x200a
    || n == 0x2028 || n == 0x2029 || n == 0x202f || n == 0x205f || n == 0x3000
  }

  function Strip(s: string): string {
    if s == [] then s
    else if IsSpace(s[0]) then Strip(s[1..])
    else if IsSpace(s[|s| - 1]) then Strip(s[..|s| - 1])
    else s
  }

  predicate IsTool(m: Message) {
    m.role.Tool?
  }

  predicate IsScreenshot(m: Message) {
    m.role.Tool? && m.content.Parts? && exists p | p in m.content.parts :: p.Image?
  }

  function OmitImages(m: Message): Message {
    var text := Strip(ContentAsText(m.content));
    m.(content := Text(if text == "" then SCREENSHOT_OMIT else text + "\n" + SCREENSHOT_OMIT))
  }

  function TrimText(m: Message): Message {
    var text := ContentAsText(m.content);
    if |text| <= TRIM_KEEP then m else m.(content := Text(text[..TRIM_KEEP] + TRIM_NOTICE))
  }

  /****** Rewriting all but the last `keep` messages of a kind ******/

  /** Length of `indexes[:-keep] if keep else indexes`, for any integer `keep`. */
  function OldCount(n: nat, keep: int): (stale: nat)
    ensures stale <= n
    ensures keep >= 0 ==> stale == (if n >= keep then n - keep else 0)
    ensures keep < 0 ==> stale == (if n >= -keep then -keep else n)
  {
    if keep == 0 then n
    else if keep > 0 then (if keep >= n then 0 else n - keep)
    else if -keep <= n then -keep else n
  }

  function Count(h: seq<Message>, kind: Message -> bool): (n: nat)
    ensures n <= |h|
  {
    if h == [] then 0 else (if kind(h[0]) then 1 else 0) + Count(h[1..], kind)
  }

  function Select(h: seq<Message>, kind: Message -> bool): seq<Message> {
    if h == [] then [] else (if kind(h[0]) then [h[0]] else []) + Select(h[1..], kind)
  }

  /** Rewrites the first `stale` messages of the given kind. */
  function RewriteOld(h: seq<Message>, kind: Message -> bool, rewrite: Message -> Message, stale: nat): (out: seq<Message>)
    ensures |out| == |h|
  {
    if h == [] then []
    else if kind(h[0]) && stale > 0 then [rewrite(h[0])] + RewriteOld(h[1..], kind, rewrite, stale - 1)
    else [h[0]] + RewriteOld(h[1..], kind, rewrite, stale)
  }

  function Shrinkage(h: seq<Message>, kind: Message -> bool, rewrite: Message -> Message, stale: nat): int {
    if h == [] then 0
    else if kind(h[0]) && stale > 0 then
      |ContentAsText(h[0].content)| - |ContentAsText(rewrite(h[0]).content)|
      + Shrinkage(h[1..], kind, rewrite, stale - 1)
    else Shrinkage(h[1..], kind, rewrite, stale)
  }

  function Pruned(h: seq<Message>, keep: int): seq<Message> {
    RewriteOld(h, IsScreenshot, OmitImages, OldCount(Count(h, IsScreenshot), keep))
  }

  function Trimmed(h: seq<Message>, keep: int): seq<Message> {
    RewriteOld(h, IsTool, TrimText, OldCount(Count(h, IsTool), keep))
  }

  function TrimSavings(h: seq<Message>, keep: int): int {
    Shrinkage(h, IsTool, TrimText, OldCount(Count(h, IsTool), keep))
  }

  lemma {:induction false} RewriteNext(h: seq<Message>, index: nat, kind: Message -> bool, rewrite: Message -> Message, stale: nat, out: seq<Message>)
    requires index < |h|
    ensures var goes := kind(h[index]) && stale > 0;
            var next := if goes then rewrite(h[index]) else h[index];
            var left := if goes then stale - 1 else stale;
            && out + RewriteOld(h[index..], kind, rewrite, stale)
               == out + [next] + RewriteOld(h[index + 1..], kind, rewrite, left)
            && Shrinkage(h[index..], kind, rewrite, stale)
               == (if goes then |ContentAsText(h[index].content)| - |ContentAsText(next.content)| else 0)
                  + Shrinkage(h[index + 1..], kind, rewrite, left)
  {
    assert h[index..][1..] == h[index + 1..];
  }

  method PruneScreenshots(messages: seq<Message>, keep: int := SCREENSHOT_KEEP) returns (out: seq<Message>)
    ensures out == Pruned(messages, keep)
  {
    var stale := OldCount(Count(messages, IsScreenshot), keep);
    if stale == 0 {
      RewriteNothing(messages, IsScreenshot, OmitImages);
      return messages;
    }
    out := [];
    for index := 0 to |messages|
      invariant out + RewriteOld(messages[index..], IsScreenshot, OmitImages, stale) == Pruned(messages, keep)
    {
      RewriteNext(messages, index, IsScreenshot, OmitImages, stale, out);
      if IsScreenshot(messages[index]) && stale > 0 {
        out := out + [OmitImages(messages[index])];
        stale := stale - 1;
      } else {
        out := out + [messages[index]];
      }
    }
  }

  method TrimToolResults(messages: seq<Message>, keep: int := KEEP_FULL_TOOL_RESULTS)
    returns (out: seq<Message>, saved: int)
    ensures out == Trimmed(messages, keep)
    ensures saved == TrimSavings(messages, keep)
  {
    var stale := OldCount(Count(messages, IsTool), keep);
    out, saved := [], 0;
    for index := 0 to |messages|
      invariant out + RewriteOld(messages[index..], IsTool, TrimText, stale) == Trimmed(messages, keep)
      invariant saved + Shrinkage(messages[index..], IsTool, TrimText, stale) == TrimSavings(messages, keep)
    {
      RewriteNext(messages, index, IsTool, TrimText, stale, out);
      var message := messages[index];
      if IsTool(message) && stale > 0 {
        var shorter := TrimText(message);
        saved := saved + |ContentAsText(message.content)| - |ContentAsText(shorter.content)|;
        out, stale := out + [shorter], stale - 1;
      } else {
        out := out + [message];
      }
    }
  }

  /****** What the rewrites keep ******/

  lemma {:induction false} RewriteNothing(h: seq<Message>, kind: Message -> bool, rewrite: Message -> Message)
    ensures RewriteOld(h, kind, rewrite, 0) == h
  {
    if h != [] { RewriteNothing(h[1..], kind, rewrite); }
  }

  ghost predicate KeepsSkeleton(rewrite: Message -> Message) {
    forall m :: rewrite(m).role == m.role && rewrite(m).calls == m.calls && rewrite(m).callId == m.callId
  }

  lemma {:induction false} RewriteSkeleton(h: seq<Message>, kind: Message -> bool, rewrite: Message -> Message, stale: nat)
    requires KeepsSkeleton(rewrite)
    ensures SameSkeleton(h, RewriteOld(h, kind, rewrite, stale))
  {
    if h != [] {
      var next := if kind(h[0]) && stale > 0 then stale - 1 else stale;
      RewriteSkeleton(h[1..], kind, rewrite, next);
      forall k | 1 <= k < |h| ensures RewriteOld(h, kind, rewrite, stale)[k] == RewriteOld(h[1..], kind, rewrite, next)[k - 1] {}
      forall k | 1 <= k < |h| ensures h[k] == h[1..][k - 1] {}
    }
  }

  lemma {:induction false} CountConcat(a: seq<Message>, b: seq<Message>, kind: Message -> bool)
    ensures Count(a + b, kind) == Count(a, kind) + Count(b, kind)
  {
    if a == [] {
      assert a + b == b;
    } else {
      assert (a + b)[1..] == a[1..] + b;
      CountConcat(a[1..], b, kind);
    }
  }

  lemma {:induction false} RewriteAt(h: seq<Message>, kind: Message -> bool, rewrite: Message -> Message, stale: nat, i: nat)
    requires i < |h|
    ensures RewriteOld(h, kind, rewrite, stale)[i] == if kind(h[i]) && Count(h[..i], kind) < stale then rewrite(h[i]) else h[i]
  {
    if i > 0 {
      RewriteAt(h[1..], kind, rewrite, if kind(h[0]) && stale > 0 then stale - 1 else stale, i - 1);
      assert h[..i][1..] == h[1..][..i - 1];
    } else {
      assert h[..0] == [];
    }
  }

  lemma {:induction false} NewerThan(h: seq<Message>, kind: Message -> bool, i: nat)
    requires i < |h| && kind(h[i])
    ensures Count(h, kind) == Count(h[..i], kind) + 1 + Count(h[i + 1..], kind)
  {
    assert h == h[..i] + ([h[i]] + h[i + 1..]);
    CountConcat(h[..i], [h[i]] + h[i + 1..], kind);
    assert ([h[i]] + h[i + 1..])[1..] == h[i + 1..];
  }

  /** A screenshot loses its images exactly when `keep` newer ones follow it. */
  lemma {:induction false} PrunedAt(h: seq<Message>, keep: nat, i: nat)
    requires i < |h|
    ensures Pruned(h, keep)[i] == if IsScreenshot(h[i]) && Count(h[i + 1..], IsScreenshot) >= keep then OmitImages(h[i]) else h[i]
  {
    RewriteAt(h, IsScreenshot, OmitImages, OldCount(Count(h, IsScreenshot), keep), i);
    if IsScreenshot(h[i]) { NewerThan(h, IsScreenshot, i); }
  }

  /** A tool result is trimmed exactly when `keep` newer ones follow it. */
  lemma {:induction false} TrimmedAt(h: seq<Message>, keep: nat, i: nat)
    requires i < |h|
    ensures Trimmed(h, keep)[i] == if IsTool(h[i]) && Count(h[i + 1..], IsTool) >= keep then TrimText(h[i]) else h[i]
  {
    RewriteAt(h, IsTool, TrimText, OldCount(Count(h, IsTool), keep), i);
    if IsTool(h[i]) { NewerThan(h, IsTool, i); }
  }

  /****** What is left of a text ******/

  function TextLength(h: seq<Message>): nat {
    if h == [] then 0 else |ContentAsText(h[0].content)| + TextLength(h[1..])
  }

  /** The saving reported is the text that went, no more and no less. */
  lemma {:induction false} SavingIsDifference(h: seq<Message>, kind: Message -> bool, rewrite: Message -> Message, stale: nat)
    ensures Shrinkage(h, kind, rewrite, stale) == TextLength(h) - TextLength(RewriteOld(h, kind, rewrite, stale))
  {
    if h != [] {
      var next := if kind(h[0]) && stale > 0 then stale - 1 else stale;
      SavingIsDifference(h[1..], kind, rewrite, next);
      assert RewriteOld(h, kind, rewrite, stale)[1..] == RewriteOld(h[1..], kind, rewrite, next);
    }
  }

  ghost predicate NoBlocks(parts: seq<Part>) {
    forall k | 0 <= k < |parts| :: parts[k].Image?
  }

  /** Blocks are joined in order with one newline between two; images leave nothing. */
  lemma {:induction false} BlocksJoin(a: seq<Part>, b: seq<Part>)
    ensures JoinBlocks(a + b) ==
            if NoBlocks(a) then JoinBlocks(b) else if NoBlocks(b) then JoinBlocks(a) else JoinBlocks(a) + "\n" + JoinBlocks(b)
    ensures forall text :: JoinBlocks([Block(text)]) == text
  {
    if a == [] {
      assert a + b == b;
    } else {
      BlocksJoin(a[1..], b);
      assert (a + b)[1..] == a[1..] + b;
      assert NoBlocks((a + b)[1..]) <==> NoBlocks(a[1..]) && NoBlocks(b) by { PartsOf(a[1..], b); }
      RestHasNoBlocks(a);
      RestHasNoBlocks(a + b);
      if !NoBlocks(a[1..]) && !NoBlocks(b) && a[0].Block? {
        assert a[0].text + "\n" + (JoinBlocks(a[1..]) + "\n" + JoinBlocks(b)) == a[0].text + "\n" + JoinBlocks(a[1..]) + "\n" + JoinBlocks(b);
      }
    }
  }

  lemma {:induction false} PartsOf(a: seq<Part>, b: seq<Part>)
    ensures NoBlocks(a + b) <==> NoBlocks(a) && NoBlocks(b)
  {
    if NoBlocks(a + b) {
      forall k | 0 <= k < |a| ensures a[k].Image? { assert (a + b)[k] == a[k]; }
      forall k | 0 <= k < |b| ensures b[k].Image? { assert (a + b)[|a| + k] == b[k]; }
    }
  }

  lemma {:induction false} RestHasNoBlocks(parts: seq<Part>)
    requires parts != []
    ensures NoBlocks(parts[1..]) <==> forall k | 1 <= k < |parts| :: parts[k].Image?
    ensures NoBlocks(parts) <==> parts[0].Image? && NoBlocks(parts[1..])
  {
    if NoBlocks(parts[1..]) { forall k | 1 <= k < |parts| ensures parts[k].Image? { assert parts[k] == parts[1..][k - 1]; } }
  }

  ghost predicate AllSpace(s: string) {
    forall k | 0 <= k < |s| :: IsSpace(s[k])
  }

  lemma {:induction false} OneMore(a: string, b: string, c: string, d: string)
    ensures a + (b + c + d) == a + b + c + d == a + b + (c + d)
  {
  }

  /** What is stripped is space, and what is left begins and ends with something else. */
  lemma {:induction false} StripMeans(s: string) returns (before: string, after: string)
    ensures s == before + Strip(s) + after && AllSpace(before) && AllSpace(after)
    ensures Strip(s) != "" ==> !IsSpace(Strip(s)[0]) && !IsSpace(Strip(s)[|Strip(s)| - 1])
    decreases |s|
  {
    before, after := "", "";
    if s != "" {
      if IsSpace(s[0]) {
        before, after := StripMeans(s[1..]);
        OneMore([s[0]], before, Strip(s[1..]), after);
        before := [s[0]] + before;
      } else if IsSpace(s[|s| - 1]) {
        before, after := StripMeans(s[..|s| - 1]);
        OneMore(before, Strip(s[..|s| - 1]), after, [s[|s| - 1]]);
        after := after + [s[|s| - 1]];
      }
    }
  }

  /** The text beside an image survives, stripped, in front of the notice. */
  lemma {:induction false} OmitKeepsText(m: Message)
    requires m.content.Parts?
    ensures var text := Strip(JoinBlocks(m.content.parts));
            && OmitImages(m).role == m.role && OmitImages(m).callId == m.callId
            && OmitImages(m).content == Text((if text == "" then "" else text + "\n") + "[earlier screenshot omitted]")
  {
    assert "" + SCREENSHOT_OMIT == SCREENSHOT_OMIT;
    var text := Strip(JoinBlocks(m.content.parts));
    assert text + "\n" + SCREENSHOT_OMIT == (text + "\n") + SCREENSHOT_OMIT;
  }

  /** A long result keeps its first 400 characters in front of the notice, a short one everything. */
  lemma {:induction false} TrimKeepsFront(m: Message)
    ensures var text, out := ContentAsText(m.content), ContentAsText(TrimText(m).content);
            if |text| <= 400 then TrimText(m) == m
            else out[..400] == text[..400] && out[400..] == TRIM_NOTICE && TrimText(m).role == m.role
  {
  }

  /** A tool result with an image in it. */
  predicate HoldsImage(m: Message) {
    m.role.Tool? && m.content.Parts? && Image in m.content.parts
  }

  lemma {:induction false} CountSame(h: seq<Message>)
    ensures Count(h, HoldsImage) == Count(h, IsScreenshot)
  {
    if h != [] { CountSame(h[1..]); }
  }

  /** No more than `keep` tool results hold an image after pruning. */
  lemma {:induction false} FewImagesLeft(h: seq<Message>, keep: nat)
    ensures Count(Pruned(h, keep), HoldsImage) <= keep
  {
    PruneKeepsNewest(h, keep);
    SelectLength(h, IsScreenshot);
    SelectLength(Pruned(h, keep), IsScreenshot);
    CountSame(Pruned(h, keep));
  }

  /** Each message of a rewritten history is the old one or its rewrite. */
  lemma {:induction false} RewriteOneByOne(h: seq<Message>, kind: Message -> bool, rewrite: Message -> Message, stale: nat)
    ensures forall k | 0 <= k < |h| ::
              var out := RewriteOld(h, kind, rewrite, stale);
              out[k] == h[k] || (kind(h[k]) && out[k] == rewrite(h[k]))
  {
    if h != [] {
      var next := if kind(h[0]) && stale > 0 then stale - 1 else stale;
      RewriteOneByOne(h[1..], kind, rewrite, next);
      var out, rest := RewriteOld(h, kind, rewrite, stale), RewriteOld(h[1..], kind, rewrite, next);
      forall k | 0 <= k < |h| ensures out[k] == h[k] || (kind(h[k]) && out[k] == rewrite(h[k])) {
        if k > 0 { assert out[k] == rest[k - 1] && h[k] == h[1..][k - 1]; }
      }
    }
  }

  lemma {:induction false} PrunedSkeleton(h: seq<Message>, keep: int)
    ensures SameSkeleton(h, Pruned(h, keep))
    ensures Paired(h) ==> Paired(Pruned(h, keep))
  {
    RewriteSkeleton(h, IsScreenshot, OmitImages, OldCount(Count(h, IsScreenshot), keep));
    if Paired(h) { SkeletonPairs(h, Pruned(h, keep)); }
  }

  lemma {:induction false} PrunedPairedIff(h: seq<Message>, keep: int)
    ensures SameSkeleton(h, Pruned(h, keep)) && (Paired(Pruned(h, keep)) <==> Paired(h))
  {
    PrunedSkeleton(h, keep);
    if Paired(Pruned(h, keep)) { SkeletonPairs(Pruned(h, keep), h); }
  }

  lemma {:induction false} TrimmedSkeleton(h: seq<Message>, keep: int)
    ensures SameSkeleton(h, Trimmed(h, keep))
    ensures Paired(h) ==> Paired(Trimmed(h, keep))
  {
    RewriteSkeleton(h, IsTool, TrimText, OldCount(Count(h, IsTool), keep));
    if Paired(h) { SkeletonPairs(h, Trimmed(h, keep)); }
  }

  lemma {:induction false} SelectLength(h: seq<Message>, kind: Message -> bool)
    ensures |Select(h, kind)| == Count(h, kind)
  {
    if h != [] { SelectLength(h[1..], kind); }
  }

  lemma {:induction false} RewriteRemovesOld(h: seq<Message>, kind: Message -> bool, rewrite: Message -> Message, stale: nat)
    requires stale <= |Select(h, kind)| && forall m | kind(m) :: !kind(rewrite(m))
    ensures Select(RewriteOld(h, kind, rewrite, stale), kind) == Select(h, kind)[stale..]
  {
    if stale == 0 {
      RewriteNothing(h, kind, rewrite);
    } else if kind(h[0]) {
      RewriteRemovesOld(h[1..], kind, rewrite, stale - 1);
      SelectCons(rewrite(h[0]), RewriteOld(h[1..], kind, rewrite, stale - 1), kind);
      RestOfCons(h[0], Select(h[1..], kind), stale);
    } else {
      RewriteRemovesOld(h[1..], kind, rewrite, stale);
      SelectCons(h[0], RewriteOld(h[1..], kind, rewrite, stale), kind);
      assert Select(h, kind) == Select(h[1..], kind);
    }
  }

  lemma {:induction false} SelectCons(m: Message, rest: seq<Message>, kind: Message -> bool)
    ensures Select([m] + rest, kind) == if kind(m) then [m] + Select(rest, kind) else Select(rest, kind)
  {
    assert ([m] + rest)[1..] == rest;
    assert [] + Select(rest, kind) == Select(rest, kind);
  }

  lemma {:induction false} RestOfCons(m: Message, rest: seq<Message>, n: nat)
    requires 0 < n <= |rest| + 1
    ensures ([m] + rest)[n..] == rest[n - 1..]
  {
  }

  /** After pruning, the screenshots left are exactly the last `keep` ones, unchanged and in order. */
  lemma {:induction false} PruneKeepsNewest(h: seq<Message>, keep: nat)
    ensures var shots := Select(h, IsScreenshot);
            Select(Pruned(h, keep), IsScreenshot) == if |shots| <= keep then (if keep == 0 then [] else shots) else shots[|shots| - keep..]
  {
    SelectLength(h, IsScreenshot);
    RewriteRemovesOld(h, IsScreenshot, OmitImages, OldCount(Count(h, IsScreenshot), keep));
  }

  lemma {:induction false} TrimTextTwice(m: Message)
    ensures TrimText(TrimText(m)) == TrimText(m)
  {
    var text := ContentAsText(m.content);
    if |text| > TRIM_KEEP {
      assert (text[..TRIM_KEEP] + TRIM_NOTICE)[..TRIM_KEEP] == text[..TRIM_KEEP];
    }
  }

  lemma {:induction false} RewriteCount(h: seq<Message>, stale: nat)
    ensures Count(RewriteOld(h, IsTool, TrimText, stale), IsTool) == Count(h, IsTool)
  {
    if h != [] {
      var next := if IsTool(h[0]) && stale > 0 then stale - 1 else stale;
      assert RewriteOld(h, IsTool, TrimText, stale)[1..] == RewriteOld(h[1..], IsTool, TrimText, next);
      RewriteCount(h[1..], next);
    }
  }

  lemma {:induction false} RewriteTwice(h: seq<Message>, stale: nat)
    ensures var out := RewriteOld(h, IsTool, TrimText, stale);
            RewriteOld(out, IsTool, TrimText, stale) == out && Shrinkage(out, IsTool, TrimText, stale) == 0
  {
    if h != [] {
      var next := if IsTool(h[0]) && stale > 0 then stale - 1 else stale;
      assert RewriteOld(h, IsTool, TrimText, stale)[1..] == RewriteOld(h[1..], IsTool, TrimText, next);
      RewriteTwice(h[1..], next);
      TrimTextTwice(h[0]);
    }
  }

  /** Trimming twice is trimming once, and the second pass reports no saving. */
  lemma {:induction false} TrimIdempotent(h: seq<Message>, keep: int)
    ensures Trimmed(Trimmed(h, keep), keep) == Trimmed(h, keep)
    ensures TrimSavings(Trimmed(h, keep), keep) == 0
  {
    var stale := OldCount(Count(h, IsTool), keep);
    RewriteCount(h, stale);
    RewriteTwice(h, stale);
  }

  /** Trimming a result makes it longer exactly when it is over 400 characters by less than the notice. */
  lemma {:induction false} TrimCanLengthen(m: Message)
    ensures |ContentAsText(TrimText(m).content)| > |ContentAsText(m.content)| <==>
            TRIM_KEEP < |ContentAsText(m.content)| < TRIM_KEEP + |TRIM_NOTICE|
  {
  }
}
