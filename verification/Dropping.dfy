/**
 The two dropping algorithms of agents/compactor.py: `_drop_oldest`, which walks forward from the
 oldest group, and `_apply_eviction_order`, which removes groups in the order a judge gives.
 */
module Dropping {
  import opened History

  /****** Budgets ******/

  const TOKENS_PER_MESSAGE := 4
  const TOKENS_PER_TOOL_CALL := 8
  const CHARS_PER_TOKEN := 4

  /** `weight(m)` is the length of the JSON text of one message. */
  datatype Limits = Limits(weight: Message -> nat, budget: int, ratio: real, trigger: real)

  function Weight(h: seq<Message>, weight: Message -> nat): nat {
    if h == [] then 0 else weight(h[0]) + Weight(h[1..], weight)
  }

  function CallCount(h: seq<Message>): nat {
    if h == [] then 0 else |h[0].calls| + CallCount(h[1..])
  }

  /** Length of the JSON array: brackets, the items, and ", " between them. */
  function JsonLength(h: seq<Message>, weight: Message -> nat): nat {
    2 + Weight(h, weight) + (if h == [] then 0 else 2 * (|h| - 1))
  }

  function EstimateTokens(h: seq<Message>, weight: Message -> nat): nat {
    JsonLength(h, weight) / CHARS_PER_TOKEN + |h| * TOKENS_PER_MESSAGE + CallCount(h) * TOKENS_PER_TOOL_CALL
  }

  /** `int(x)`: truncation toward zero. */
  function Truncate(x: real): int {
    if x < 0.0 then -((-x).Floor) else x.Floor
  }

  /** `ratio or 1.0` times a token count, cut to an integer. */
  function Scale(tokens: nat, ratio: real): int {
    Truncate(tokens as real * (if ratio == 0.0 then 1.0 else ratio))
  }

  function ScaledTokens(h: seq<Message>, limits: Limits, floor: int := 0): int {
    var estimated := Scale(EstimateTokens(h, limits.weight), limits.ratio);
    if floor != 0 && estimated < floor then floor else estimated
  }

  function Trigger(limits: Limits): int {
    Truncate(limits.budget as real * limits.trigger)
  }

  predicate OverBudget(h: seq<Message>, limits: Limits) {
    ScaledTokens(h, limits) >= Trigger(limits)
  }

  /** Joining two arrays turns two brackets into a comma and a space, so the length is additive. */
  lemma {:induction false} JsonLengthAdds(a: seq<Message>, b: seq<Message>, weight: Message -> nat)
    requires a != [] && b != []
    ensures JsonLength(a + b, weight) == JsonLength(a, weight) + JsonLength(b, weight)
    ensures forall m :: JsonLength([m], weight) == weight(m) + 2
    ensures JsonLength([], weight) == 2
  {
    WeightConcat(a, b, weight);
    forall m ensures JsonLength([m], weight) == weight(m) + 2 {
      assert [m][1..] == [] && Weight([m], weight) == weight(m) + Weight([], weight);
    }
  }

  /** The estimate is a token for four characters, four for each message and eight for each call. */
  lemma {:induction false} EstimateMeans(a: seq<Message>, b: seq<Message>, weight: Message -> nat)
    ensures var tokens := EstimateTokens(a, weight) - 4 * |a| - 8 * CallCount(a);
            4 * tokens <= JsonLength(a, weight) < 4 * tokens + 4
    ensures CallCount(a + b) == CallCount(a) + CallCount(b)
    ensures forall m :: CallCount([m]) == |m.calls|
  {
    WeightConcat(a, b, weight);
  }

  /** A float is cut toward zero. */
  lemma {:induction false} TruncateMeans(x: real)
    ensures var n := Truncate(x) as real;
            if x >= 0.0 then 0.0 <= n <= x < n + 1.0 else n - 1.0 < x <= n <= 0.0
  {
  }

  /** The prompt tokens last reported are a lower bound for the estimate. */
  lemma {:induction false} FloorIsMaximum(h: seq<Message>, limits: Limits, floor: nat)
    ensures var estimate, floored := Scale(EstimateTokens(h, limits.weight), limits.ratio), ScaledTokens(h, limits, floor);
            && (floor > 0 ==> floored >= estimate && floored >= floor && (floored == estimate || floored == floor))
            && (floor == 0 ==> floored == estimate)
  {
  }

  /** Cutting both sides to integers decides nothing: a history is over budget exactly when its scaled
      estimate reaches the whole tokens of the trigger. */
  lemma {:induction false} OverBudgetIff(h: seq<Message>, limits: Limits)
    requires limits.ratio >= 0.0 && limits.budget as real * limits.trigger >= 0.0
    ensures var ratio := if limits.ratio == 0.0 then 1.0 else limits.ratio;
            OverBudget(h, limits) <==>
            EstimateTokens(h, limits.weight) as real * ratio >= (limits.budget as real * limits.trigger).Floor as real
  {
    var tokens, ratio := EstimateTokens(h, limits.weight), if limits.ratio == 0.0 then 1.0 else limits.ratio;
    ProductNotNegative(tokens, ratio);
    var x, y := tokens as real * ratio, limits.budget as real * limits.trigger;
    assert ScaledTokens(h, limits) == Truncate(x);
    assert Trigger(limits) == Truncate(y);
    TruncatesReach(x, y);
  }

  lemma {:induction false} ProductNotNegative(n: nat, x: real)
    requires x >= 0.0
    ensures n as real * x >= 0.0
  {
  }

  lemma {:induction false} TruncatesReach(x: real, y: real)
    requires x >= 0.0 && y >= 0.0
    ensures Truncate(x) >= Truncate(y) <==> x >= y.Floor as real
  {
    FloorReaches(x, y.Floor);
  }

  lemma {:induction false} FloorReaches(x: real, n: int)
    requires x >= 0.0
    ensures Truncate(x) >= n <==> x >= n as real
  {
  }

  lemma {:induction false} WeightConcat(a: seq<Message>, b: seq<Message>, weight: Message -> nat)
    ensures Weight(a + b, weight) == Weight(a, weight) + Weight(b, weight)
    ensures CallCount(a + b) == CallCount(a) + CallCount(b)
  {
    if a == [] {
      assert a + b == b;
    } else {
      assert (a + b)[1..] == a[1..] + b;
      WeightConcat(a[1..], b, weight);
    }
  }

  lemma {:induction false} ScaleMonotone(x: nat, y: nat, ratio: real)
    requires x <= y && ratio >= 0.0
    ensures Scale(x, ratio) <= Scale(y, ratio)
  {
    var r := if ratio == 0.0 then 1.0 else ratio;
    assert 0.0 <= x as real * r <= y as real * r;
  }

  lemma {:induction false} EstimateMonotone(a: seq<Message>, middle: seq<Message>, b: seq<Message>, weight: Message -> nat)
    ensures EstimateTokens(a + b, weight) <= EstimateTokens(a + middle + b, weight)
  {
    WeightConcat(a, b, weight);
    WeightConcat(a + middle, b, weight);
    WeightConcat(a, middle, weight);
    assert a + middle + b == [] ==> a + b == [];
    assert JsonLength(a + b, weight) <= JsonLength(a + middle + b, weight);
  }

  /** Removing messages from the middle of a history never puts it over budget. */
  lemma {:induction false} DroppingHelps(a: seq<Message>, middle: seq<Message>, b: seq<Message>, limits: Limits)
    requires limits.ratio >= 0.0
    requires OverBudget(a + b, limits)
    ensures OverBudget(a + middle + b, limits)
  {
    EstimateMonotone(a, middle, b, limits.weight);
    ScaleMonotone(EstimateTokens(a + b, limits.weight), EstimateTokens(a + middle + b, limits.weight), limits.ratio);
  }

  /****** Groups ******/

  /** The validator reports no error. */
  predicate Valid(h: seq<Message>) {
    Errors(h, 0, {}) == []
  }

  function Advance(h: seq<Message>, cut: int): (r: int)
    requires cut >= 1
    ensures cut <= r && (r <= |h| || r == cut)
    ensures forall c | cut <= c < r :: SplitsGroup(h, c)
    ensures r < |h| ==> !SplitsGroup(h, r)
    decreases |h| - cut
  {
    if cut < |h| && SplitsGroup(h, cut) then Advance(h, cut + 1) else cut
  }

  /** The first position from `cut` on whose two neighbours belong to different groups; a cut of at
      most 1 is left alone. */
  function BoundaryFrom(h: seq<Message>, cut: int): (r: int)
    ensures cut <= r
  {
    if cut <= 1 then cut else Advance(h, cut)
  }

  method GroupBoundary(messages: seq<Message>, start: int) returns (cut: int)
    ensures cut == BoundaryFrom(messages, start)
  {
    if start <= 1 { return start; }
    cut := start;
    while cut < |messages|
      invariant start <= cut
      invariant Advance(messages, cut) == Advance(messages, start)
      decreases |messages| - cut
    {
      var prev := messages[cut - 1];
      if Opens(prev) {
        cut := cut + 1;
        continue;
      }
      if prev.role.Tool? && messages[cut].role.Tool? {
        cut := cut + 1;
        continue;
      }
      break;
    }
  }

  /** In a paired history every cut of at least 2 is moved to a place between two groups. */
  lemma {:induction false} BoundaryIsBetween(h: seq<Message>, cut: int)
    requires Paired(h) && 2 <= cut <= |h|
    ensures BoundaryFrom(h, cut) <= |h| && Between(h, BoundaryFrom(h, cut))
  {
    var r := BoundaryFrom(h, cut);
    if r < |h| {
      CutIsBetween(h, r);
    } else {
      assert h[..r] == h && h[r..] == [];
    }
  }

  function LastUser(h: seq<Message>, n: nat): (r: int)
    requires n <= |h|
    ensures -1 <= r < n
    ensures r >= 0 ==> h[r].role.User?
    ensures forall k | r < k < n && k >= 0 :: !h[k].role.User?
  {
    if n == 0 then -1 else if h[n - 1].role.User? then n - 1 else LastUser(h, n - 1)
  }

  ghost predicate HasUser(h: seq<Message>) {
    exists k | 0 <= k < |h| :: h[k].role.User?
  }

  /** The last user message, or the last message when there is none. */
  function LastExchange(h: seq<Message>): (r: nat)
    ensures HasUser(h) ==> r < |h| && h[r].role.User? && forall k | r < k < |h| :: !h[k].role.User?
  {
    var r := LastUser(h, |h|);
    if r >= 0 then r else if |h| - 1 > 1 then |h| - 1 else 1
  }

  /** The last user message; without one the last message, but not the first. */
  lemma {:induction false} LastExchangeMeans(h: seq<Message>)
    ensures var r := LastExchange(h);
            if exists k :: 0 <= k < |h| && h[k].role.User?
            then r < |h| && h[r].role.User? && forall k | r < k < |h| :: !h[k].role.User?
            else r == if |h| > 1 then |h| - 1 else 1
  {
  }

  method LastExchangeStart(messages: seq<Message>) returns (r: nat)
    ensures r == LastExchange(messages)
  {
    var index := |messages|;
    while index > 0
      invariant 0 <= index <= |messages|
      invariant LastUser(messages, index) == LastUser(messages, |messages|)
    {
      index := index - 1;
      if messages[index].role.User? { return index; }
    }
    return if |messages| - 1 > 1 then |messages| - 1 else 1;
  }

  type Group = (nat, nat)

  function Prefix(h: seq<Message>): nat {
    if h != [] && h[0].role.System? then 1 else 0
  }

  predicate InRange(h: seq<Message>, groups: seq<Group>) {
    forall k | 0 <= k < |groups| :: groups[k].0 <= groups[k].1 <= |h|
  }

  function GroupsFrom(h: seq<Message>, cut: nat, end: nat): (groups: seq<Group>)
    ensures Tiles(groups, cut, if end <= cut then cut else end)
    decreases end - cut
  {
    if cut >= end then []
    else
      var b := BoundaryFrom(h, cut + 1);
      var nxt := if b < end then b else end;
      [(cut, nxt)] + GroupsFrom(h, nxt, end)
  }

  /** The ranges are non-empty, adjacent, and cover [start, end). */
  predicate Tiles(groups: seq<Group>, start: nat, end: nat) {
    if groups == [] then start == end
    else groups[0].0 == start && start < groups[0].1 <= end && Tiles(groups[1..], groups[0].1, end)
  }

  method AtomicGroups(messages: seq<Message>, start: nat, end: nat) returns (groups: seq<Group>)
    ensures groups == GroupsFrom(messages, start, end)
  {
    groups := [];
    var cut := start;
    while cut < end
      invariant groups + GroupsFrom(messages, cut, end) == GroupsFrom(messages, start, end)
      decreases end - cut
    {
      var nxt := GroupBoundary(messages, cut + 1);
      if nxt > end { nxt := end; }
      if nxt <= cut { nxt := cut + 1; }
      ghost var rest := GroupsFrom(messages, nxt, end);
      assert GroupsFrom(messages, cut, end) == [(cut, nxt)] + rest;
      assert groups + ([(cut, nxt)] + rest) == groups + [(cut, nxt)] + rest;
      groups := groups + [(cut, nxt)];
      cut := nxt;
    }
  }

  /****** Dropping the oldest groups ******/

  /** What both algorithms work on: a history of which the messages before `prefix` and from `last` on
      stay, the end of the group that starts at a position, the size of a range, the validator they
      consult, and the budget test that ends them. */
  datatype Task = Task(h: seq<Message>, prefix: nat, last: nat, groupEnd: nat -> int, size: seq<Message> -> nat,
                       legal: seq<Message> -> bool, over: seq<Message> -> bool)
  {
    ghost predicate Bounded() {
      prefix <= last <= |h| && forall cut: nat :: cut < groupEnd(cut)
    }
  }

  function TaskAt(h: seq<Message>, prefix: nat, last: nat, limits: Limits): Task {
    Task(h, prefix, last, cut => BoundaryFrom(h, cut + 1), range => Weight(range, limits.weight),
         Valid, candidate => OverBudget(candidate, limits))
  }

  function TaskFor(h: seq<Message>, limits: Limits): Task {
    TaskAt(h, Prefix(h), LastExchange(h), limits)
  }

  /** The loop of `_drop_oldest` from position `cut` on, with the best candidate found so far. */
  function DropFrom(t: Task, cut: nat, best: seq<Message>, saved: nat): (seq<Message>, nat)
    requires t.Bounded() && t.prefix <= cut
    decreases t.last - cut
  {
    if cut >= t.last then (best, saved)
    else
      var nxt := t.groupEnd(cut);
      if nxt > t.last then (best, saved)
      else
        var candidate := t.h[..t.prefix] + t.h[nxt..];
        if !t.legal(candidate) then DropFrom(t, nxt, best, saved)
        else
          var removed := t.size(t.h[t.prefix..nxt]);
          if !t.over(candidate) then (candidate, removed) else DropFrom(t, nxt, candidate, removed)
  }

  /** Whether there is anything between the system prompt and the last exchange. */
  predicate Droppable(h: seq<Message>) {
    |h| >= 2 && Prefix(h) < LastExchange(h)
  }

  lemma {:induction false} DroppableBounded(h: seq<Message>, limits: Limits)
    requires Droppable(h)
    ensures TaskFor(h, limits).Bounded()
  {
  }

  function DroppedOldest(h: seq<Message>, limits: Limits): (seq<Message>, nat) {
    if !Droppable(h) then (h, 0)
    else
      DroppableBounded(h, limits);
      DropFrom(TaskFor(h, limits), Prefix(h), h, 0)
  }

  lemma {:induction false} DropNext(h: seq<Message>, prefix: nat, last: nat, limits: Limits, cut: nat, best: seq<Message>, saved: nat)
    requires TaskAt(h, prefix, last, limits).Bounded() && prefix <= cut < last
    ensures var t := TaskAt(h, prefix, last, limits);
            var nxt := BoundaryFrom(h, cut + 1);
            DropFrom(t, cut, best, saved) ==
            if nxt > last then (best, saved)
            else if !Valid(h[..prefix] + h[nxt..]) then DropFrom(t, nxt, best, saved)
            else if !OverBudget(h[..prefix] + h[nxt..], limits) then (h[..prefix] + h[nxt..], Weight(h[prefix..nxt], limits.weight))
            else DropFrom(t, nxt, h[..prefix] + h[nxt..], Weight(h[prefix..nxt], limits.weight))
  {
  }

  method DropOldest(messages: seq<Message>, limits: Limits) returns (best: seq<Message>, saved: nat)
    ensures (best, saved) == DroppedOldest(messages, limits)
  {
    if |messages| < 2 { return messages, 0; }
    var prefix := if messages[0].role.System? then 1 else 0;
    var last := LastExchangeStart(messages);
    if last <= prefix { return messages, 0; }
    ghost var task := TaskFor(messages, limits);
    DroppableBounded(messages, limits);
    assert task == TaskAt(messages, prefix, last, limits) && task.Bounded();
    ghost var goal := DropFrom(task, prefix, messages, 0);
    var cut := prefix;
    best, saved := messages, 0;
    while cut < last
      invariant prefix <= cut <= last
      invariant DropFrom(task, cut, best, saved) == goal
      decreases last - cut
    {
      DropNext(messages, prefix, last, limits, cut, best, saved);
      var nxt := GroupBoundary(messages, cut + 1);
      if nxt > last { break; }
      var candidate := messages[..prefix] + messages[nxt..];
      if !Valid(candidate) {
        cut := nxt;
        continue;
      }
      saved := Weight(messages[prefix..nxt], limits.weight);
      best := candidate;
      if !OverBudget(candidate, limits) { return candidate, saved; }
      cut := nxt;
    }
  }

  /****** Evicting groups in any order ******/

  function KeptGroups(h: seq<Message>, groups: seq<Group>, i: nat, dropped: set<nat>): seq<Message>
    requires i <= |groups| && InRange(h, groups)
    decreases |groups| - i
  {
    if i == |groups| then []
    else if i in dropped then KeptGroups(h, groups, i + 1, dropped)
    else h[groups[i].0..groups[i].1] + KeptGroups(h, groups, i + 1, dropped)
  }

  function Kept(t: Task, groups: seq<Group>, dropped: set<nat>): seq<Message>
    requires t.Bounded() && InRange(t.h, groups)
  {
    t.h[..t.prefix] + KeptGroups(t.h, groups, 0, dropped) + t.h[t.last..]
  }

  datatype Eviction = Eviction(messages: seq<Message>, saved: nat, dropped: set<nat>)

  function GroupWeight(t: Task, groups: seq<Group>, index: nat): nat
    requires InRange(t.h, groups) && index < |groups|
  {
    t.size(t.h[groups[index].0..groups[index].1])
  }

  /** The loop of `_apply_eviction_order` over the rest of the order. */
  function EvictFrom(t: Task, groups: seq<Group>, order: seq<nat>, sofar: Eviction): Eviction
    requires t.Bounded() && InRange(t.h, groups)
    requires forall k | 0 <= k < |order| :: order[k] < |groups|
    decreases |order|
  {
    if order == [] then sofar
    else
      var index := order[0];
      var dropped := sofar.dropped + {index};
      var kept := Kept(t, groups, dropped);
      if !t.legal(kept) then EvictFrom(t, groups, order[1..], sofar.(dropped := dropped - {index}))
      else
        var next := Eviction(kept, sofar.saved + GroupWeight(t, groups, index), dropped);
        if !t.over(kept) then next else EvictFrom(t, groups, order[1..], next)
  }

  /** The inner loop of the eviction: everything except the dropped groups. */
  method WithoutDropped(messages: seq<Message>, groups: seq<Group>, dropped: set<nat>, prefix: nat, last: nat)
    returns (kept: seq<Message>)
    requires prefix <= |messages| && last <= |messages| && InRange(messages, groups)
    ensures kept == messages[..prefix] + KeptGroups(messages, groups, 0, dropped) + messages[last..]
  {
    kept := messages[..prefix];
    for i := 0 to |groups|
      invariant kept + KeptGroups(messages, groups, i, dropped)
             == messages[..prefix] + KeptGroups(messages, groups, 0, dropped)
    {
      if i !in dropped {
        ghost var rest := KeptGroups(messages, groups, i + 1, dropped);
        var range := messages[groups[i].0..groups[i].1];
        assert kept + (range + rest) == kept + range + rest;
        kept := kept + range;
      }
    }
    kept := kept + messages[last..];
  }

  lemma {:induction false} EvictNext(t: Task, groups: seq<Group>, order: seq<nat>, k: nat, sofar: Eviction)
    requires t.Bounded() && InRange(t.h, groups)
    requires forall k | 0 <= k < |order| :: order[k] < |groups|
    requires k < |order|
    ensures var dropped := sofar.dropped + {order[k]};
            var kept := Kept(t, groups, dropped);
            var next := Eviction(kept, sofar.saved + GroupWeight(t, groups, order[k]), dropped);
            EvictFrom(t, groups, order[k..], sofar) ==
            if !t.legal(kept) then EvictFrom(t, groups, order[k + 1..], sofar.(dropped := dropped - {order[k]}))
            else if !t.over(kept) then next else EvictFrom(t, groups, order[k + 1..], next)
  {
    assert order[k..][0] == order[k] && order[k..][1..] == order[k + 1..];
  }

  method ApplyEvictionOrder(messages: seq<Message>, groups: seq<Group>, order: seq<nat>, prefix: nat, last: nat, limits: Limits)
    returns (candidate: seq<Message>, saved: nat, droppedCount: nat)
    requires prefix <= last <= |messages| && InRange(messages, groups)
    requires forall k | 0 <= k < |order| :: order[k] < |groups|
    ensures var e := EvictFrom(TaskAt(messages, prefix, last, limits), groups, order, Eviction(messages, 0, {}));
            candidate == e.messages && saved == e.saved && droppedCount == |e.dropped|
  {
    ghost var task := TaskAt(messages, prefix, last, limits);
    ghost var goal := EvictFrom(task, groups, order, Eviction(messages, 0, {}));
    var dropped: set<nat> := {};
    candidate, saved := messages, 0;
    assert order[0..] == order;
    var k := 0;
    while k < |order|
      invariant k <= |order|
      invariant EvictFrom(task, groups, order[k..], Eviction(candidate, saved, dropped)) == goal
    {
      EvictNext(task, groups, order, k, Eviction(candidate, saved, dropped));
      var index := order[k];
      k := k + 1;
      dropped := dropped + {index};
      var kept := WithoutDropped(messages, groups, dropped, prefix, last);
      assert kept == Kept(task, groups, dropped) && task.legal(kept) == Valid(kept) && task.over(kept) == OverBudget(kept, limits);
      if !Valid(kept) {
        dropped := dropped - {index};
        continue;
      }
      saved := saved + Weight(messages[groups[index].0..groups[index].1], limits.weight);
      candidate := kept;
      if !OverBudget(candidate, limits) { return candidate, saved, |dropped|; }
    }
    return candidate, saved, |dropped|;
  }
}
