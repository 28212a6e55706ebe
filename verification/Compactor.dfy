/**
 `compact` of agents/compactor.py: prune, trim, summarize, trim harder, drop. The model's reply, its
 failure and the judge's scores are inputs.
 */
module Compactor {
  import opened Wrappers
  import opened History
  import opened Rewriting
  import opened Dropping
  import opened DroppingProofs

  datatype Strategy = Noop | Trim | Summarize | Truncated

  datatype Info = Info(strategy: Strategy, before: nat, after: nat, saved: int, tokensAfter: int)

  /** The call to the summarizing model: not available, answering, or raising. */
  datatype Summarizer = NoModel | Answers(text: string) | Raises

  /** The compaction judge: a verdict scores each group, and counts only when enforced. */
  datatype Judge = NoJudge | Judge(enforced: bool, verdict: Option<nat -> real>)

  /****** Summarizing ******/

  const SUMMARY_HEAD := "## Earlier conversation\n"

  function FirstSystem(h: seq<Message>, from: nat): (r: nat)
    requires from <= |h|
    ensures from <= r <= |h| && (r < |h| ==> h[r].role.System?)
    ensures forall k | from <= k < r :: !h[k].role.System?
    decreases |h| - from
  {
    if from == |h| || h[from].role.System? then from else FirstSystem(h, from + 1)
  }

  function SummaryStart(last: int): int {
    if last - 2 > 2 then last - 2 else 2
  }

  function SummaryCut(h: seq<Message>): int {
    BoundaryFrom(h, SummaryStart(LastExchange(h)))
  }

  lemma {:induction false} SummaryCutInRange(h: seq<Message>)
    requires |h| >= 4
    ensures 2 <= SummaryCut(h) <= |h|
  {
  }

  /** The history with everything before the cut folded into one system message; the first system
      message, wherever it is, comes first. */
  function Summarized(h: seq<Message>, text: string): seq<Message>
    requires |h| >= 4
  {
    SummaryCutInRange(h);
    var system := FirstSystem(h, 0);
    (if system < |h| then [h[system]] else [])
    + [Message(System, [], "", Text(SUMMARY_HEAD + text))] + h[SummaryCut(h)..]
  }

  /** What goes to the model: the head without its first system message and without images. */
  function ToSummarize(h: seq<Message>): seq<Message>
    requires |h| >= 4
  {
    SummaryCutInRange(h);
    var cut, system := SummaryCut(h), FirstSystem(h, 0);
    Pruned(if system < cut then h[..system] + h[system + 1..cut] else h[..cut], 0)
  }

  /** What the summary saves: the weight of what it stands for, less its own length. */
  function SummaryGain(h: seq<Message>, text: string, limits: Limits): nat
    requires |h| >= 4
  {
    var gain := Weight(ToSummarize(h), limits.weight) - |text|;
    if gain > 0 then gain else 0
  }

  /** The first system message, wherever it is, if there is one. */
  ghost predicate IsPrompt(h: seq<Message>, prompt: seq<Message>) {
    || (prompt == [] && forall k | 0 <= k < |h| :: !h[k].role.System?)
    || exists k :: 0 <= k < |h| && h[k].role.System? && prompt == [h[k]] && forall j | 0 <= j < k :: !h[j].role.System?
  }

  /** Where the summary may end: at the first place from two messages before the last exchange on, but not
      before the third message, that splits no group. */
  ghost predicate IsCut(h: seq<Message>, cut: int) {
    && 2 <= cut <= |h| && LastExchange(h) - 2 <= cut
    && (cut == |h| || !SplitsGroup(h, cut))
    && forall c | 2 <= c < cut && LastExchange(h) - 2 <= c :: SplitsGroup(h, c)
  }

  /** A folded history: the prompt, one system message with the text of the model under the fixed heading,
      and the messages from the cut on. */
  ghost predicate Folds(h: seq<Message>, text: string, cut: int, out: seq<Message>) {
    && IsCut(h, cut)
    && exists prompt ::
         IsPrompt(h, prompt) && out == prompt + [Message(System, [], "", Text("## Earlier conversation\n" + text))] + h[cut..]
  }

  lemma {:induction false} SummarizedFolds(h: seq<Message>, text: string)
    requires |h| >= 4
    ensures Folds(h, text, SummaryCut(h), Summarized(h, text))
  {
    SummaryCutInRange(h);
    var system := FirstSystem(h, 0);
    var prompt := if system < |h| then [h[system]] else [];
    assert IsPrompt(h, prompt);
    assert IsCut(h, SummaryCut(h));
  }

  lemma {:induction false} PrunedAway(h: seq<Message>, s: nat)
    requires s < |h| && !h[s].role.Tool?
    ensures Pruned(h, 0) == Pruned(h[..s], 0) + [h[s]] + Pruned(h[s + 1..], 0)
  {
    var front, back := h[..s], h[s + 1..];
    var out := Pruned(front, 0) + [h[s]] + Pruned(back, 0);
    forall i | 0 <= i < |h| ensures Pruned(h, 0)[i] == out[i] {
      PrunedAt(h, 0, i);
      if i < s {
        PrunedAt(front, 0, i);
        assert out[i] == Pruned(front, 0)[i];
      } else if i > s {
        PrunedAt(back, 0, i - s - 1);
        assert out[i] == Pruned(back, 0)[i - s - 1];
      }
    }
  }

  lemma {:induction false} PrunedApart(a: seq<Message>, b: seq<Message>)
    ensures Pruned(a + b, 0) == Pruned(a, 0) + Pruned(b, 0)
  {
    forall i | 0 <= i < |a| + |b| ensures Pruned(a + b, 0)[i] == (Pruned(a, 0) + Pruned(b, 0))[i] {
      PrunedAt(a + b, 0, i);
      if i < |a| { PrunedAt(a, 0, i); } else { PrunedAt(b, 0, i - |a|); }
    }
  }

  /** A summary saves the weight of the head without images, less the weight of the prompt, which stays, and
      less its own length; never less than nothing. */
  lemma {:induction false} SummaryGainMeans(h: seq<Message>, text: string, limits: Limits)
    requires |h| >= 4
    ensures 2 <= SummaryCut(h) <= |h|
    ensures var cut, system := SummaryCut(h), FirstSystem(h, 0);
            var gain := Weight(Pruned(h[..cut], 0), limits.weight) - (if system < cut then limits.weight(h[system]) else 0) - |text|;
            SummaryGain(h, text, limits) == (if gain > 0 then gain else 0)
  {
    SummaryCutInRange(h);
    var cut, system := SummaryCut(h), FirstSystem(h, 0);
    if system < cut {
      var head, front, back := h[..cut], h[..system], h[system + 1..cut];
      assert head[..system] == front && head[system + 1..] == back;
      PrunedAway(head, system);
      PrunedApart(front, back);
      WeightConcat(Pruned(front, 0) + [h[system]], Pruned(back, 0), limits.weight);
      WeightConcat(Pruned(front, 0), [h[system]], limits.weight);
      WeightConcat(Pruned(front, 0), Pruned(back, 0), limits.weight);
      assert [h[system]][1..] == [] && Weight([h[system]], limits.weight) == limits.weight(h[system]) + Weight([], limits.weight);
    }
  }

  method SummarizeHistory(messages: seq<Message>, text: string, limits: Limits) returns (out: seq<Message>, saved: nat)
    ensures |messages| < 4 ==> out == messages && saved == 0
    ensures |messages| >= 4 ==> out == Summarized(messages, text) && saved == SummaryGain(messages, text, limits)
    ensures |messages| >= 4 ==> exists cut :: Folds(messages, text, cut, out)
  {
    if |messages| >= 4 { SummarizedFolds(messages, text); }
    if |messages| < 4 { return messages, 0; }
    var last := LastExchangeStart(messages);
    var cut := GroupBoundary(messages, SummaryStart(last));
    SummaryCutInRange(messages);
    var system := FirstSystem(messages, 0);
    var head := if system < cut then messages[..system] + messages[system + 1..cut] else messages[..cut];
    var folded := PruneScreenshots(head, 0);
    assert cut == SummaryCut(messages) && folded == ToSummarize(messages);
    var summary := Message(System, [], "", Text(SUMMARY_HEAD + text));
    var gain := Weight(folded, limits.weight) - |text|;
    saved := if gain > 0 then gain else 0;
    out := (if system < |messages| then [messages[system]] else []) + [summary] + messages[cut..];
  }

  lemma {:induction false} SummarizedPaired(h: seq<Message>, text: string)
    requires Paired(h) && |h| >= 4
    ensures Paired(Summarized(h, text))
  {
    SummaryCutInRange(h);
    BoundaryIsBetween(h, SummaryStart(LastExchange(h)));
    var system := FirstSystem(h, 0);
    var first := if system < |h| then [h[system]] else [];
    TwoPlainFirst(first, Message(System, [], "", Text(SUMMARY_HEAD + text)), h[SummaryCut(h)..]);
  }

  lemma {:induction false} TwoPlainFirst(first: seq<Message>, m: Message, tail: seq<Message>)
    requires |first| <= 1 && (first != [] ==> Plain(first[0])) && Plain(m) && Paired(tail)
    ensures Paired(first + [m] + tail)
  {
    PairedPlain(m, tail);
    if first == [] {
      assert first + [m] + tail == [m] + tail;
    } else {
      PairedPlain(first[0], [m] + tail);
      assert first + [m] + tail == [first[0]] + ([m] + tail);
    }
  }

  /** The same message, except that a tool result may have been shortened. */
  predicate Alike(a: Message, b: Message) {
    b == a || (a.role.Tool? && b == a.(content := b.content))
  }

  /** The last user message and everything after it end the new history too. */
  ghost predicate ExchangeKept(h: seq<Message>, out: seq<Message>) {
    var last := LastExchange(h);
    && last < |h| && LastExchange(out) == |out| - (|h| - last)
    && forall k | last <= k < |h| :: Alike(h[k], out[|out| - |h| + k])
  }

  lemma {:induction false} KeptAgain(a: seq<Message>, b: seq<Message>, c: seq<Message>)
    requires ExchangeKept(a, b) && ExchangeKept(b, c)
    ensures ExchangeKept(a, c)
  {
    forall k | LastExchange(a) <= k < |a| ensures Alike(a[k], c[|c| - |a| + k]) {
      var j := |b| - |a| + k;
      assert Alike(a[k], b[j]) && Alike(b[j], c[|c| - |b| + j]);
    }
  }

  lemma {:induction false} TailKept(h: seq<Message>, front: seq<Message>, cut: nat)
    requires HasUser(h) && cut <= LastExchange(h)
    ensures HasUser(front + h[cut..]) && ExchangeKept(h, front + h[cut..])
  {
    var out, last := front + h[cut..], LastExchange(h);
    forall k | last <= k < |h| ensures out[|out| - |h| + k] == h[k] {}
    assert out[|out| - |h| + last].role.User?;
    forall k | |out| - |h| + last < k < |out| ensures !out[k].role.User? {
      assert out[k] == h[k - (|out| - |h|)];
    }
  }

  /** The summary keeps the last user message, and all after it, exactly when that message has at
      least two messages before it; otherwise no user message is left at all. */
  lemma {:induction false} SummaryKeepsUserIff(h: seq<Message>, text: string)
    requires Paired(h) && |h| >= 4 && HasUser(h)
    ensures HasUser(Summarized(h, text)) <==> LastExchange(h) >= 2
    ensures LastExchange(h) >= 2 ==> SummaryCut(h) <= LastExchange(h) && ExchangeKept(h, Summarized(h, text))
  {
    SummaryCutInRange(h);
    var last, cut, out := LastExchange(h), SummaryCut(h), Summarized(h, text);
    var front := |out| - |h[cut..]|;
    assert forall k | 0 <= k < front :: !out[k].role.User?;
    if last >= 2 {
      UserIsUnsplit(h, last);
      TailKept(h, out[..front], cut);
      assert out == out[..front] + h[cut..];
    } else {
      forall k | 0 <= k < |out| ensures !out[k].role.User? {
        if k >= front { assert out[k] == h[cut + (k - front)]; }
      }
    }
  }

  lemma {:induction false} UserIsUnsplit(h: seq<Message>, c: nat)
    requires Paired(h) && 1 <= c < |h| && h[c].role.User?
    ensures !SplitsGroup(h, c)
  {
    if Opens(h[c - 1]) { OpenerIsFollowed(h, c - 1); }
  }

  /** The only user message is the second one: the summary swallows it. */
  lemma {:induction false} SwallowedUserExample(system: Message, user: Message, a: Message, b: Message)
    requires system.role.System? && user.role.User? && Plain(a) && Plain(b) && !a.role.User? && !b.role.User?
    ensures Paired([system, user, a, b]) && HasUser([system, user, a, b])
    ensures !HasUser(Summarized([system, user, a, b], "")) && Summarized([system, user, a, b], "")[2..] == [a, b]
  {
    var h := [system, user, a, b];
    assert h == [system] + ([user] + ([a] + ([b] + [])));
    PairedPlain(b, []);
    PairedPlain(a, [b] + []);
    PairedPlain(user, [a] + ([b] + []));
    PairedPlain(system, [user] + ([a] + ([b] + [])));
    assert h[1].role.User?;
    assert LastExchange(h) == 1;
    SummaryKeepsUserIff(h, "");
    assert SummaryCut(h) == 2;
    assert h[2..] == [a, b];
  }

  /****** Dropping by relevance ******/

  /** Ascending by score, equal scores in their original order. */
  ghost predicate Ascending(order: seq<nat>, score: nat -> real) {
    forall i, j | 0 <= i < j < |order| ::
      score(order[i]) < score(order[j]) || (score(order[i]) == score(order[j]) && order[i] < order[j])
  }

  /** A stable ascending sort of the first n indexes by score. */
  function SortedByScore(n: nat, score: nat -> real): (order: seq<nat>)
    ensures NoRepeats(order) && forall i: nat :: i in order <==> i < n
    ensures Ascending(order, score)
  {
    if n == 0 then [] else InsertByScore(SortedByScore(n - 1, score), n - 1, score)
  }

  function InsertByScore(order: seq<nat>, index: nat, score: nat -> real): (r: seq<nat>)
    requires NoRepeats(order) && Ascending(order, score) && forall i | i in order :: i < index
    ensures NoRepeats(r) && forall i :: i in r <==> i in order || i == index
    ensures Ascending(r, score)
    decreases |order|
  {
    if order == [] || score(order[|order| - 1]) <= score(index) then
      AppendAscends(order, index, score);
      order + [index]
    else
      var last, front := order[|order| - 1], order[..|order| - 1];
      assert last !in front;
      assert order == front + [last];
      assert forall i | i in front :: i in order;
      var r := InsertByScore(front, index, score);
      LastAscends(front, last, index, r, score);
      r + [last]
  }

  lemma {:induction false} AppendAscends(order: seq<nat>, index: nat, score: nat -> real)
    requires Ascending(order, score) && forall i | i in order :: i < index
    requires order == [] || score(order[|order| - 1]) <= score(index)
    ensures Ascending(order + [index], score)
  {
    forall i | 0 <= i < |order| ensures score(order[i]) <= score(index) && order[i] < index {
      assert order[i] in order;
      assert i == |order| - 1 || score(order[i]) <= score(order[|order| - 1]);
    }
  }

  lemma {:induction false} LastAscends(front: seq<nat>, last: nat, index: nat, r: seq<nat>, score: nat -> real)
    requires Ascending(front + [last], score) && Ascending(r, score) && score(index) < score(last)
    requires forall i :: i in r <==> i in front || i == index
    ensures Ascending(r + [last], score)
  {
    forall i | 0 <= i < |r| ensures score(r[i]) < score(last) || (score(r[i]) == score(last) && r[i] < last) {
      assert r[i] in r;
      if r[i] in front {
        var k :| 0 <= k < |front| && front[k] == r[i];
        assert (front + [last])[k] == r[i] && (front + [last])[|front|] == last;
      }
    }
  }

  /** The eviction in the order of the scores. */
  function EvictedByScore(h: seq<Message>, limits: Limits, score: nat -> real): Eviction
    requires Droppable(h)
  {
    DroppableBounded(h, limits);
    GroupsSplit(h, limits);
    var order := SortedByScore(|Groups(h)|, score);
    assert forall k | 0 <= k < |order| :: order[k] in order;
    EvictFrom(TaskFor(h, limits), Groups(h), order, Eviction(h, 0, {}))
  }

  /** Which of the two results ships. */
  function DroppedByRelevance(h: seq<Message>, limits: Limits, judge: Judge): (seq<Message>, nat) {
    if judge.Judge? && judge.enforced && judge.verdict.Some? && Droppable(h) && |Groups(h)| >= 2 then
      var e := EvictedByScore(h, limits, judge.verdict.value);
      (e.messages, e.saved)
    else DroppedOldest(h, limits)
  }

  /** The groups go in ascending order of their scores, equal scores in their old order, and no more of them
      than the budget needs. */
  ghost predicate EvictedInOrder(h: seq<Message>, limits: Limits, score: nat -> real, order: seq<nat>, m: nat, out: seq<Message>)
    requires WellGrouped(h)
  {
    GroupsSplit(h, limits);
    var t, groups := TaskFor(h, limits), Groups(h);
    && Remaining(|groups|, order, {}) && 1 <= m <= |order|
    && (forall i, j | 0 <= i < j < |order| ::
          score(order[i]) < score(order[j]) || (score(order[i]) == score(order[j]) && order[i] < order[j]))
    && out == Kept(t, groups, Front(order, m))
    && (forall j | 1 <= j < m :: OverBudget(Kept(t, groups, Front(order, j)), limits))
    && (m == |order| || !OverBudget(out, limits))
  }

  /** Only an enforced verdict on two groups or more changes what goes. */
  ghost predicate DropMeans(h: seq<Message>, limits: Limits, judge: Judge, out: seq<Message>) {
    && (judge.NoJudge? || !judge.enforced || judge.verdict.None? || |Groups(h)| < 2 ==> out == DroppedOldest(h, limits).0)
    && (judge.Judge? && judge.enforced && judge.verdict.Some? && |Groups(h)| >= 2 && WellGrouped(h) ==>
          exists order, m :: EvictedInOrder(h, limits, judge.verdict.value, order, m, out))
  }

  method DropByRelevance(messages: seq<Message>, limits: Limits, judge: Judge) returns (out: seq<Message>, saved: nat)
    requires judge.Judge?
    ensures Survives(messages, out)
    ensures WellGrouped(messages) ==>
            && (!OverBudget(out, limits) || out == Minimum(messages))
            && saved + Weight(out, limits.weight) == Weight(messages, limits.weight)
    ensures (out, saved) == DroppedByRelevance(messages, limits, judge)
    ensures DropMeans(messages, limits, judge, out)
  {
    out, saved := DropOldest(messages, limits);
    OldestKeeps(messages, limits);
    if WellGrouped(messages) { OldestOutcome(messages, limits); }
    if !Droppable(messages) { return; }
    var prefix := Prefix(messages);
    var last := LastExchangeStart(messages);
    var groups := AtomicGroups(messages, prefix, last);
    if |groups| < 2 || judge.verdict.None? { return; }
    var order := SortedByScore(|groups|, judge.verdict.value);
    GroupsSplit(messages, limits);
    assert Remaining(|groups|, order, {}) by {
      forall k | 0 <= k < |order| ensures order[k] < |groups| { assert order[k] in order; }
    }
    var candidate, gain, count := ApplyEvictionOrder(messages, groups, order, prefix, last, limits);
    if !judge.enforced { return; }
    EvictionKeeps(messages, limits, order);
    if WellGrouped(messages) {
      EvictionOutcome(messages, order, limits);
      ghost var m := EvictionStopsAtSmallest(messages, order, limits);
      assert EvictedInOrder(messages, limits, judge.verdict.value, order, m, candidate);
    }
    return candidate, gain;
  }

  /** What must survive a drop: the system prompt and the last user message. */
  ghost predicate Survives(h: seq<Message>, out: seq<Message>) {
    && (Paired(h) ==> Paired(out))
    && (h != [] && h[0].role.System? ==> out != [] && out[0] == h[0])
    && (HasUser(h) ==> HasUser(out) && ExchangeKept(h, out))
  }

  lemma {:induction false} EdgesSurvive(h: seq<Message>, middle: seq<Message>)
    requires Prefix(h) < LastExchange(h) < |h|
    requires Paired(h) ==> Paired(h[..Prefix(h)] + middle + h[LastExchange(h)..])
    ensures Survives(h, h[..Prefix(h)] + middle + h[LastExchange(h)..])
  {
    var out := h[..Prefix(h)] + middle + h[LastExchange(h)..];
    if HasUser(h) { TailKept(h, h[..Prefix(h)] + middle, LastExchange(h)); }
  }

  /** A candidate keeps both edges of the history. */
  ghost predicate Edged(t: Task, out: seq<Message>)
    requires t.Bounded()
  {
    out == t.h || exists middle :: out == t.h[..t.prefix] + middle + t.h[t.last..]
  }

  lemma {:induction false} DropFromEdged(t: Task, cut: nat, best: seq<Message>, saved: nat)
    requires t.Bounded() && t.prefix <= cut && Edged(t, best)
    ensures Edged(t, DropFrom(t, cut, best, saved).0)
    decreases t.last - cut
  {
    if cut < t.last && t.groupEnd(cut) <= t.last {
      var nxt := t.groupEnd(cut);
      var candidate := t.h[..t.prefix] + t.h[nxt..];
      assert candidate == t.h[..t.prefix] + t.h[nxt..t.last] + t.h[t.last..];
      if t.legal(candidate) {
        DropFromEdged(t, nxt, candidate, t.size(t.h[t.prefix..nxt]));
      } else {
        DropFromEdged(t, nxt, best, saved);
      }
    }
  }

  lemma {:induction false} EvictFromEdged(t: Task, groups: seq<Group>, order: seq<nat>, sofar: Eviction)
    requires t.Bounded() && InRange(t.h, groups) && Edged(t, sofar.messages)
    requires forall k | 0 <= k < |order| :: order[k] < |groups|
    ensures Edged(t, EvictFrom(t, groups, order, sofar).messages)
    decreases |order|
  {
    if order != [] {
      var dropped := sofar.dropped + {order[0]};
      var kept := Kept(t, groups, dropped);
      if t.legal(kept) {
        EvictFromEdged(t, groups, order[1..], Eviction(kept, sofar.saved + GroupWeight(t, groups, order[0]), dropped));
      } else {
        EvictFromEdged(t, groups, order[1..], sofar.(dropped := dropped - {order[0]}));
      }
    }
  }

  lemma {:induction false} EdgedSurvives(h: seq<Message>, limits: Limits, out: seq<Message>)
    requires Droppable(h) && TaskFor(h, limits).Bounded() && LastExchange(h) < |h|
    requires Edged(TaskFor(h, limits), out) && (Paired(h) ==> Valid(out))
    ensures Survives(h, out)
  {
    NoErrorsIffPaired(out);
    if out != h {
      var middle :| out == h[..Prefix(h)] + middle + h[LastExchange(h)..];
      EdgesSurvive(h, middle);
    }
  }

  lemma {:induction false} OldestKeeps(h: seq<Message>, limits: Limits)
    ensures Survives(h, DroppedOldest(h, limits).0)
  {
    if Droppable(h) {
      var t := TaskFor(h, limits);
      DroppableBounded(h, limits);
      DropFromEdged(t, Prefix(h), h, 0);
      if Paired(h) {
        NoErrorsIffPaired(h);
        DropFromLegal(t, Prefix(h), h, 0);
      }
      EdgedSurvives(h, limits, DroppedOldest(h, limits).0);
    }
  }

  lemma {:induction false} EvictionKeeps(h: seq<Message>, limits: Limits, order: seq<nat>)
    requires Droppable(h) && Splits(TaskFor(h, limits), Groups(h))
    requires forall k | 0 <= k < |order| :: order[k] < |Groups(h)|
    ensures Survives(h, EvictFrom(TaskFor(h, limits), Groups(h), order, Eviction(h, 0, {})).messages)
  {
    var t := TaskFor(h, limits);
    EvictFromEdged(t, Groups(h), order, Eviction(h, 0, {}));
    if Paired(h) {
      NoErrorsIffPaired(h);
      EvictFromLegal(t, Groups(h), order, Eviction(h, 0, {}));
    }
    EdgedSurvives(h, limits, EvictFrom(t, Groups(h), order, Eviction(h, 0, {})).messages);
  }

  /****** The whole pipeline ******/

  /** A rewrite of contents: nothing structural changes, and the system prompt not at all. */
  ghost predicate OnlyContents(h: seq<Message>, out: seq<Message>) {
    Survives(h, out) && (HasUser(h) <==> HasUser(out)) && LastExchange(h) == LastExchange(out)
  }

  lemma {:induction false} SkeletonExchange(a: seq<Message>, b: seq<Message>, n: nat)
    requires SameSkeleton(a, b) && n <= |a|
    ensures LastUser(a, n) == LastUser(b, n)
  {
    if n > 0 { SkeletonExchange(a, b, n - 1); }
  }

  lemma {:induction false} RewriteOnlyContents(h: seq<Message>, kind: Message -> bool, rewrite: Message -> Message, stale: nat)
    requires KeepsSkeleton(rewrite) && forall m | kind(m) :: m.role.Tool?
    ensures OnlyContents(h, RewriteOld(h, kind, rewrite, stale))
  {
    var out := RewriteOld(h, kind, rewrite, stale);
    RewriteSkeleton(h, kind, rewrite, stale);
    SkeletonExchange(h, out, |h|);
    RewriteOneByOne(h, kind, rewrite, stale);
    if Paired(h) { SkeletonPairs(h, out); }
    if HasUser(h) {
      var k :| 0 <= k < |h| && h[k].role.User?;
      assert out[k].role.User?;
    }
    if HasUser(out) {
      var k :| 0 <= k < |out| && out[k].role.User?;
      assert h[k].role.User?;
    }
  }

  lemma {:induction false} PrunedOnlyContents(h: seq<Message>, keep: int)
    ensures OnlyContents(h, Pruned(h, keep))
  {
    RewriteOnlyContents(h, IsScreenshot, OmitImages, OldCount(Count(h, IsScreenshot), keep));
  }

  lemma {:induction false} TrimmedOnlyContents(h: seq<Message>, keep: int)
    ensures OnlyContents(h, Trimmed(h, keep))
  {
    RewriteOnlyContents(h, IsTool, TrimText, OldCount(Count(h, IsTool), keep));
  }

  /** What a stage keeps that may summarize. */
  ghost predicate Keeps(h: seq<Message>, out: seq<Message>) {
    && (Paired(h) ==> Paired(out))
    && (h != [] && h[0].role.System? ==> out != [] && out[0] == h[0])
    && (Paired(h) && HasUser(h) && LastExchange(h) >= 2 ==> HasUser(out) && ExchangeKept(h, out))
  }

  lemma {:induction false} KeepsAround(a: seq<Message>, b: seq<Message>, c: seq<Message>, d: seq<Message>)
    requires OnlyContents(a, b) && Keeps(b, c) && Survives(c, d)
    ensures Keeps(a, d)
  {
    if Paired(a) && HasUser(a) && LastExchange(a) >= 2 {
      KeptAgain(a, b, c);
      KeptAgain(a, c, d);
    }
  }

  method SummarizeStage(messages: seq<Message>, limits: Limits, summarizer: Summarizer)
    returns (out: seq<Message>, saved: nat, ran: bool)
    ensures ran <==> OverBudget(messages, limits) && summarizer.Answers?
    ensures !ran ==> out == messages && saved == 0
    ensures ran ==> out == if |messages| >= 4 then Summarized(messages, summarizer.text) else messages
    ensures ran && |messages| >= 4 ==> exists cut :: Folds(messages, summarizer.text, cut, out)
    ensures Keeps(messages, out)
    ensures |messages| >= 4 && ran ==> saved == SummaryGain(messages, summarizer.text, limits)
    ensures |messages| < 4 ==> saved == 0
  {
    ran := OverBudget(messages, limits) && summarizer.Answers?;
    if !ran { return messages, 0, ran; }
    out, saved := SummarizeHistory(messages, summarizer.text, limits);
    if |messages| >= 4 && Paired(messages) {
      SummarizedPaired(messages, summarizer.text);
      if HasUser(messages) { SummaryKeepsUserIff(messages, summarizer.text); }
    }
  }

  method TrimHarder(messages: seq<Message>, limits: Limits) returns (out: seq<Message>, saved: int)
    ensures out == if OverBudget(messages, limits) && TrimSavings(messages, 0) != 0 then Trimmed(messages, 0) else messages
    ensures saved == if OverBudget(messages, limits) then TrimSavings(messages, 0) else 0
    ensures saved != 0 <==> out != messages
    ensures Survives(messages, out)
  {
    TrimmedOnlyContents(messages, 0);
    out, saved := messages, 0;
    if OverBudget(messages, limits) {
      var harder, extra := TrimToolResults(messages, 0);
      if extra != 0 {
        if harder == messages {
          SavingsMeanChange(messages, IsTool, TrimText, OldCount(Count(messages, IsTool), 0));
        }
        out, saved := harder, extra;
      }
    }
  }

  lemma {:induction false} SavingsMeanChange(h: seq<Message>, kind: Message -> bool, rewrite: Message -> Message, stale: nat)
    requires RewriteOld(h, kind, rewrite, stale) == h
    ensures Shrinkage(h, kind, rewrite, stale) == 0
  {
    if h != [] {
      var next := if kind(h[0]) && stale > 0 then stale - 1 else stale;
      assert RewriteOld(h, kind, rewrite, stale)[1..] == RewriteOld(h[1..], kind, rewrite, next);
      SavingsMeanChange(h[1..], kind, rewrite, next);
    }
  }

  method DropStage(messages: seq<Message>, limits: Limits, judge: Judge) returns (out: seq<Message>, saved: int)
    ensures Survives(messages, out)
    ensures !OverBudget(messages, limits) ==> out == messages && saved == 0
    ensures OverBudget(messages, limits) ==> (out, saved) == DroppedByRelevance(messages, limits, judge)
    ensures OverBudget(messages, limits) ==> DropMeans(messages, limits, judge, out)
    ensures WellGrouped(messages) ==>
            && (!OverBudget(out, limits) || out == Minimum(messages))
            && saved + Weight(out, limits.weight) == Weight(messages, limits.weight)
  {
    out, saved := messages, 0;
    if OverBudget(messages, limits) {
      if judge.Judge? {
        out, saved := DropByRelevance(messages, limits, judge);
      } else {
        out, saved := DropOldest(messages, limits);
        OldestKeeps(messages, limits);
        if WellGrouped(messages) { OldestOutcome(messages, limits); }
      }
    }
  }

  function FirstTrim(history: seq<Message>, keepFull: int): seq<Message> {
    Trimmed(Pruned(history, SCREENSHOT_KEEP), keepFull)
  }

  predicate Summarizes(trimmed: seq<Message>, limits: Limits, summarizer: Summarizer) {
    OverBudget(trimmed, limits) && summarizer.Answers? && |trimmed| >= 4
  }

  /** The history after the first trim and the summary. */
  function AfterSummary(history: seq<Message>, limits: Limits, keepFull: int, summarizer: Summarizer): seq<Message> {
    var trimmed := FirstTrim(history, keepFull);
    if Summarizes(trimmed, limits, summarizer) then Summarized(trimmed, summarizer.text) else trimmed
  }

  /** The history after every stage but the last. */
  function BeforeDropping(history: seq<Message>, limits: Limits, keepFull: int, summarizer: Summarizer): seq<Message> {
    var shorter := AfterSummary(history, limits, keepFull, summarizer);
    if OverBudget(shorter, limits) && TrimSavings(shorter, 0) != 0 then Trimmed(shorter, 0) else shorter
  }

  /** The characters those stages report as saved. */
  function SavedBeforeDropping(history: seq<Message>, limits: Limits, keepFull: int, summarizer: Summarizer): int {
    var trimmed, shorter := FirstTrim(history, keepFull), AfterSummary(history, limits, keepFull, summarizer);
    TrimSavings(Pruned(history, SCREENSHOT_KEEP), keepFull)
    + (if Summarizes(trimmed, limits, summarizer) then SummaryGain(trimmed, summarizer.text, limits) else 0)
    + (if OverBudget(shorter, limits) then TrimSavings(shorter, 0) else 0)
  }

  /** Trim, summarize, and trim harder. */
  method Shorten(history: seq<Message>, pruned: seq<Message>, limits: Limits, keepFull: int, summarizer: Summarizer)
    returns (out: seq<Message>, saved: int, ran: bool, extra: int)
    requires pruned == Pruned(history, SCREENSHOT_KEEP)
    ensures out == BeforeDropping(history, limits, keepFull, summarizer)
    ensures saved == SavedBeforeDropping(history, limits, keepFull, summarizer)
    ensures extra != 0 <==> out != AfterSummary(history, limits, keepFull, summarizer)
    ensures ran <==> OverBudget(FirstTrim(history, keepFull), limits) && summarizer.Answers?
    ensures Keeps(pruned, out)
    ensures var trimmed, shorter := FirstTrim(history, keepFull), AfterSummary(history, limits, keepFull, summarizer);
            if ran && |trimmed| >= 4 then exists cut :: Folds(trimmed, summarizer.text, cut, shorter) else shorter == trimmed
  {
    var trimmed, first := TrimToolResults(pruned, keepFull);
    TrimmedOnlyContents(pruned, keepFull);
    var shorter, gain;
    shorter, gain, ran := SummarizeStage(trimmed, limits, summarizer);
    out, extra := TrimHarder(shorter, limits);
    KeepsAround(pruned, trimmed, shorter, out);
    saved := first + gain + extra;
  }

  /** The result and the report of a compaction that ran. */
  ghost predicate Compacted(history: seq<Message>, limits: Limits, keepFull: int, summarizer: Summarizer, judge: Judge,
                            out: seq<Message>, info: Info) {
    var trimmed := Trimmed(Pruned(history, SCREENSHOT_KEEP), keepFull);
    var shorter := AfterSummary(history, limits, keepFull, summarizer);
    var last := BeforeDropping(history, limits, keepFull, summarizer);
    var (dropped, freed) := if OverBudget(last, limits) then DroppedByRelevance(last, limits, judge) else (last, 0);
    && out == dropped
    && (OverBudget(last, limits) ==> DropMeans(last, limits, judge, out))
    && last == (if OverBudget(shorter, limits) && TrimSavings(shorter, 0) != 0 then Trimmed(shorter, 0) else shorter)
    && (if OverBudget(trimmed, limits) && summarizer.Answers? && |trimmed| >= 4
        then exists cut :: Folds(trimmed, summarizer.text, cut, shorter) else shorter == trimmed)
    && (WellGrouped(last) ==> (!OverBudget(out, limits) || out == Minimum(last))
                              && freed + Weight(out, limits.weight) == Weight(last, limits.weight))
    && info.saved == TrimSavings(Pruned(history, SCREENSHOT_KEEP), keepFull)
                     + (if OverBudget(trimmed, limits) && summarizer.Answers? && |trimmed| >= 4
                        then SummaryGain(trimmed, summarizer.text, limits) else 0)
                     + (if OverBudget(shorter, limits) then TrimSavings(shorter, 0) else 0)
                     + (if out != last then freed else 0)
    && info.tokensAfter == ScaledTokens(out, limits)
    && (info.strategy.Truncated? <==> last != shorter || out != last)
    && (info.strategy.Summarize? <==>
          !info.strategy.Truncated? && OverBudget(trimmed, limits) && summarizer.Answers?)
  }

  /** The stages after the screenshots, once the history has reached the trigger. */
  method Reduce(history: seq<Message>, pruned: seq<Message>, limits: Limits, keepFull: int, summarizer: Summarizer, judge: Judge)
    returns (out: seq<Message>, info: Info)
    requires pruned == Pruned(history, SCREENSHOT_KEEP)
    ensures Keeps(history, out)
    ensures Compacted(history, limits, keepFull, summarizer, judge, out, info)
    ensures !info.strategy.Noop? && info.before == |history| && info.after == |out|
  {
    PrunedOnlyContents(history, SCREENSHOT_KEEP);
    var harder, saved, ran, extra := Shorten(history, pruned, limits, keepFull, summarizer);
    var freed;
    out, freed := DropStage(harder, limits, judge);
    KeepsAround(history, pruned, harder, out);
    var strategy := if out != harder || extra != 0 then Truncated else if ran then Summarize else Trim;
    info := Info(strategy, |pruned|, |out|, saved + (if out != harder then freed else 0), ScaledTokens(out, limits));
  }

  /**
   Compacts a history. The `RuntimeError` of the source is the Failure result: from a paired history it
   is never reached, the result is paired and still starts with the system prompt, and the last user
   message survives with all that follows it whenever two messages precede it. A later stage runs only
   while the history is over budget, and the last one ends under budget or with nothing left to drop.
   */
  method Compact(history: seq<Message>, limits: Limits, lastPromptTokens: nat, keepFull: int,
                 summarizer: Summarizer, judge: Judge)
    returns (r: Result<(seq<Message>, Info), seq<HistoryError>>)
    ensures Paired(history) ==> r.Success? && Paired(r.value.0)
    ensures r.Success? && history != [] && history[0].role.System? ==> r.value.0 != [] && r.value.0[0] == history[0]
    ensures r.Success? && Paired(history) && HasUser(history) && LastExchange(history) >= 2 ==>
              HasUser(r.value.0) && ExchangeKept(history, r.value.0)
    ensures r.Success? && r.value.1.strategy.Noop? ==> r.value.0 == Pruned(history, SCREENSHOT_KEEP)
    ensures r.Success? ==> (r.value.1.strategy.Noop? <==>
                            ScaledTokens(Pruned(history, SCREENSHOT_KEEP), limits, lastPromptTokens) < Trigger(limits))
    ensures r.Success? && !r.value.1.strategy.Noop? ==>
            Compacted(history, limits, keepFull, summarizer, judge, r.value.0, r.value.1)
    ensures r.Success? ==> r.value.1.after == |r.value.0| && r.value.1.before == |history|
    ensures r.Success? && r.value.1.strategy.Noop? ==> r.value.1.saved == 0
    ensures r.Failure? ==> r.error != []
  {
    var messages := PruneScreenshots(history);
    PrunedOnlyContents(history, SCREENSHOT_KEEP);
    var estimated := ScaledTokens(messages, limits, lastPromptTokens);
    if estimated < Trigger(limits) {
      return Success((messages, Info(Noop, |messages|, |messages|, 0, estimated)));
    }
    var out, info := Reduce(history, messages, limits, keepFull, summarizer, judge);
    var errors := ValidateHistory(out);
    if errors != [] { return Failure(errors); }
    return Success((out, info));
  }
}
