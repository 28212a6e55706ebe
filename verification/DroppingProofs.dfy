/** What the two dropping algorithms guarantee, and when they agree. */
module DroppingProofs {
  import opened History
  import opened Dropping

  function Groups(h: seq<Message>): (groups: seq<Group>)
    ensures Prefix(h) <= LastExchange(h) ==> Tiles(groups, Prefix(h), LastExchange(h))
  {
    GroupsFrom(h, Prefix(h), LastExchange(h))
  }

  lemma {:induction false} TilesBounds(groups: seq<Group>, start: nat, end: nat)
    requires Tiles(groups, start, end)
    ensures start <= end
    ensures forall k | 0 <= k < |groups| :: start <= groups[k].0 < groups[k].1 <= end
  {
    if groups != [] { TilesBounds(groups[1..], groups[0].1, end); }
  }

  /****** Keeping and dropping ranges ******/

  function Below(k: nat): (indexes: set<nat>)
    ensures forall i: nat :: i in indexes <==> i < k
  {
    if k == 0 then {} else Below(k - 1) + {k - 1}
  }

  /** The groups cover exactly the messages between the prefix and the last exchange. */
  ghost predicate Splits(t: Task, groups: seq<Group>) {
    t.Bounded() && Tiles(groups, t.prefix, t.last) && InRange(t.h, groups)
  }

  lemma {:induction false} KeptSuffix(h: seq<Message>, groups: seq<Group>, i: nat, start: nat, end: nat, dropped: set<nat>)
    requires i <= |groups| && Tiles(groups[i..], start, end) && start <= end <= |h|
    requires InRange(h, groups)
    requires forall k | i <= k < |groups| :: k !in dropped
    ensures KeptGroups(h, groups, i, dropped) == h[start..end]
    decreases |groups| - i
  {
    if i < |groups| {
      assert groups[i..][0] == groups[i] && groups[i..][1..] == groups[i + 1..];
      TilesBounds(groups[i..], start, end);
      KeptSuffix(h, groups, i + 1, groups[i].1, end, dropped);
      assert h[start..groups[i].1] + h[groups[i].1..end] == h[start..end];
    }
  }

  lemma {:induction false} KeptSkips(h: seq<Message>, groups: seq<Group>, i: nat, j: nat, dropped: set<nat>)
    requires i <= j <= |groups| && InRange(h, groups)
    requires forall k | i <= k < j :: k in dropped
    ensures KeptGroups(h, groups, i, dropped) == KeptGroups(h, groups, j, dropped)
    decreases j - i
  {
    if i < j { KeptSkips(h, groups, i + 1, j, dropped); }
  }

  /** The position reached after the first k groups. */
  function CutAt(groups: seq<Group>, k: nat, prefix: nat): nat
    requires k <= |groups|
  {
    if k == 0 then prefix else groups[k - 1].1
  }

  lemma {:induction false} TilesFrom(groups: seq<Group>, k: nat, start: nat, end: nat)
    requires Tiles(groups, start, end) && k <= |groups|
    ensures Tiles(groups[k..], CutAt(groups, k, start), end)
    ensures start <= CutAt(groups, k, start) <= end
  {
    if k == 0 {
      assert groups[0..] == groups;
      TilesBounds(groups, start, end);
    } else {
      TilesFrom(groups[1..], k - 1, groups[0].1, end);
      assert groups[1..][k - 1..] == groups[k..];
      TilesBounds(groups, start, end);
    }
  }

  /** Dropping the k oldest groups leaves the prefix and everything after those groups. */
  lemma {:induction false} KeptAfterOldest(t: Task, groups: seq<Group>, k: nat)
    requires Splits(t, groups) && k <= |groups|
    ensures t.prefix <= CutAt(groups, k, t.prefix) <= t.last
    ensures Kept(t, groups, Below(k)) == t.h[..t.prefix] + t.h[CutAt(groups, k, t.prefix)..]
  {
    var cut := CutAt(groups, k, t.prefix);
    TilesFrom(groups, k, t.prefix, t.last);
    KeptSkips(t.h, groups, 0, k, Below(k));
    KeptSuffix(t.h, groups, k, cut, t.last, Below(k));
    assert t.h[cut..t.last] + t.h[t.last..] == t.h[cut..];
    assert t.h[..t.prefix] + t.h[cut..t.last] + t.h[t.last..] == t.h[..t.prefix] + (t.h[cut..t.last] + t.h[t.last..]);
  }

  /****** Both algorithms only ever return a validated history ******/

  lemma {:induction false} DropFromLegal(t: Task, cut: nat, best: seq<Message>, saved: nat)
    requires t.Bounded() && t.prefix <= cut && t.legal(best)
    ensures t.legal(DropFrom(t, cut, best, saved).0)
    decreases t.last - cut
  {
    if cut < t.last {
      var nxt := t.groupEnd(cut);
      if nxt <= t.last {
        var candidate := t.h[..t.prefix] + t.h[nxt..];
        if !t.legal(candidate) {
          DropFromLegal(t, nxt, best, saved);
        } else {
          DropFromLegal(t, nxt, candidate, t.size(t.h[t.prefix..nxt]));
        }
      }
    }
  }

  lemma {:induction false} EvictFromLegal(t: Task, groups: seq<Group>, order: seq<nat>, sofar: Eviction)
    requires t.Bounded() && InRange(t.h, groups)
    requires forall k | 0 <= k < |order| :: order[k] < |groups|
    requires t.legal(sofar.messages)
    ensures t.legal(EvictFrom(t, groups, order, sofar).messages)
    decreases |order|
  {
    if order != [] {
      var dropped := sofar.dropped + {order[0]};
      var kept := Kept(t, groups, dropped);
      if !t.legal(kept) {
        EvictFromLegal(t, groups, order[1..], sofar.(dropped := dropped - {order[0]}));
      } else {
        EvictFromLegal(t, groups, order[1..], Eviction(kept, sofar.saved + GroupWeight(t, groups, order[0]), dropped));
      }
    }
  }

  /****** Atomic groups are atomic ******/

  /** The cheap test a caller can make: the history does not open with tool calls and the exchange to
      keep does not open with a tool result. Both hold for a system prompt and a user message. */
  ghost predicate WellGrouped(h: seq<Message>) {
    && Paired(h)
    && Prefix(h) < LastExchange(h) < |h|
    && !Opens(h[0]) && !h[LastExchange(h)].role.Tool?
  }

  lemma {:induction false} PromptAndUserAreWellGrouped(h: seq<Message>)
    requires Paired(h) && h != [] && h[0].role.System? && HasUser(h)
    ensures WellGrouped(h) <==> Droppable(h)
  {
  }

  lemma {:induction false} OpenerIsFollowed(h: seq<Message>, c: nat)
    requires Paired(h) && c < |h| && Opens(h[c])
    ensures c + 1 < |h| && h[c + 1].role.Tool?
  {
    var n := UnitLength(h[0]);
    var g := h[..n];
    if c >= n {
      OpenerIsFollowed(h[n..], c - n);
    } else {
      assert g[c] == h[c];
      assert c == 0;
      assert g[1].role.Tool? && g[1] == h[1];
    }
  }

  lemma {:induction false} ExchangeIsBetween(h: seq<Message>)
    requires WellGrouped(h)
    ensures var last := LastExchange(h); Between(h, last) && !SplitsGroup(h, last)
  {
    var last := LastExchange(h);
    if Opens(h[last - 1]) { OpenerIsFollowed(h, last - 1); }
    CutIsBetween(h, last);
  }

  ghost predicate Clean(h: seq<Message>, groups: seq<Group>) {
    forall k | 0 <= k < |groups| ::
      groups[k].0 <= groups[k].1 <= |h| && Between(h, groups[k].0) && Between(h, groups[k].1)
  }

  lemma {:induction false} NextGroup(h: seq<Message>, cut: nat)
    requires WellGrouped(h) && Prefix(h) <= cut < LastExchange(h)
    ensures var nxt := BoundaryFrom(h, cut + 1); cut < nxt <= LastExchange(h) && Between(h, nxt)
  {
    ExchangeIsBetween(h);
    var nxt := BoundaryFrom(h, cut + 1);
    if cut == 0 {
      assert !h[0].role.Tool?;
      CutIsBetween(h, 1);
    } else {
      BoundaryIsBetween(h, cut + 1);
    }
  }

  lemma {:induction false} GroupsAreClean(h: seq<Message>, cut: nat)
    requires WellGrouped(h) && Prefix(h) <= cut <= LastExchange(h) && Between(h, cut)
    ensures Clean(h, GroupsFrom(h, cut, LastExchange(h)))
    decreases LastExchange(h) - cut
  {
    if cut < LastExchange(h) {
      NextGroup(h, cut);
      GroupsAreClean(h, BoundaryFrom(h, cut + 1));
    }
  }

  lemma {:induction false} CutAfterPlain(h: seq<Message>)
    requires Paired(h) && h != [] && Plain(h[0])
    ensures Between(h, 1)
  {
    assert h[..1] == [h[0]];
    PairedPlain(h[0], []);
    assert [h[0]] + [] == [h[0]];
  }

  lemma {:induction false} PrefixIsBetween(h: seq<Message>)
    requires Paired(h) && h != []
    ensures Between(h, Prefix(h))
  {
    if Prefix(h) == 0 {
      assert h[..0] == [] && h[0..] == h;
    } else {
      CutAfterPlain(h);
    }
  }

  lemma {:induction false} KeptGroupsPaired(h: seq<Message>, groups: seq<Group>, i: nat, dropped: set<nat>)
    requires InRange(h, groups) && i <= |groups|
    requires forall k | 0 <= k < |groups| :: Paired(h[groups[k].0..groups[k].1])
    ensures Paired(KeptGroups(h, groups, i, dropped))
    decreases |groups| - i
  {
    if i < |groups| {
      KeptGroupsPaired(h, groups, i + 1, dropped);
      if i !in dropped {
        PairedConcat(h[groups[i].0..groups[i].1], KeptGroups(h, groups, i + 1, dropped));
      }
    }
  }

  lemma {:induction false} GroupsSplit(h: seq<Message>, limits: Limits)
    requires Prefix(h) < LastExchange(h) < |h|
    ensures Splits(TaskFor(h, limits), Groups(h)) && Groups(h) != []
  {
    TilesBounds(Groups(h), Prefix(h), LastExchange(h));
  }

  /** Removing any set of groups leaves a paired history, so the validate-and-skip branch is dead. */
  lemma {:induction false} AnyEvictionIsPaired(h: seq<Message>, limits: Limits, dropped: set<nat>)
    requires WellGrouped(h)
    ensures Splits(TaskFor(h, limits), Groups(h))
    ensures Paired(Kept(TaskFor(h, limits), Groups(h), dropped))
  {
    var groups := Groups(h);
    GroupsSplit(h, limits);
    ExchangeIsBetween(h);
    PrefixIsBetween(h);
    GroupsAreClean(h, Prefix(h));
    forall k | 0 <= k < |groups| ensures Paired(h[groups[k].0..groups[k].1]) {
      CutTransfers(h, groups[k].0, groups[k].1);
    }
    KeptGroupsPaired(h, groups, 0, dropped);
    PairedConcat(h[..Prefix(h)], KeptGroups(h, groups, 0, dropped));
    PairedConcat(h[..Prefix(h)] + KeptGroups(h, groups, 0, dropped), h[LastExchange(h)..]);
  }

  /** A history that opens with tool calls: its first "group" is the call without its results. */
  lemma {:induction false} OpenerIsSplit(h: seq<Message>, limits: Limits)
    requires Paired(h) && LastExchange(h) < |h| && h != [] && Opens(h[0])
    ensures Splits(TaskFor(h, limits), Groups(h))
    ensures !Paired(Kept(TaskFor(h, limits), Groups(h), Below(1)))
  {
    GroupsSplit(h, limits);
    assert Groups(h)[0] == (0, 1);
    KeptAfterOldest(TaskFor(h, limits), Groups(h), 1);
    assert h[..0] + h[1..] == h[1..];
    OpenerIsFollowed(h, 0);
  }

  /** An exchange that opens with a tool result loses its call when everything before it goes. */
  lemma {:induction false} ResultIsOrphaned(h: seq<Message>, limits: Limits)
    requires Prefix(h) < LastExchange(h) < |h| && h[LastExchange(h)].role.Tool?
    ensures Splits(TaskFor(h, limits), Groups(h))
    ensures !Paired(Kept(TaskFor(h, limits), Groups(h), Below(|Groups(h)|)))
  {
    var prefix, last, n := Prefix(h), LastExchange(h), |Groups(h)|;
    GroupsSplit(h, limits);
    KeptAfterOldest(TaskFor(h, limits), Groups(h), n);
    TilesFrom(Groups(h), n, prefix, last);
    assert h[last..][0].role.Tool?;
    if prefix == 1 {
      assert h[..1] == [h[0]];
      PairedPlain(h[0], h[last..]);
    } else {
      assert h[..0] + h[last..] == h[last..];
    }
  }

  /** With the history split as the source splits it, every choice of groups to drop is safe exactly
      when the two cheap tests pass. */
  lemma {:induction false} EvictionSafeIff(h: seq<Message>, limits: Limits)
    requires Paired(h) && Prefix(h) < LastExchange(h) < |h|
    ensures Splits(TaskFor(h, limits), Groups(h))
    ensures (forall dropped: set<nat> :: Paired(Kept(TaskFor(h, limits), Groups(h), dropped))) <==>
            !Opens(h[0]) && !h[LastExchange(h)].role.Tool?
  {
    GroupsSplit(h, limits);
    if Opens(h[0]) {
      OpenerIsSplit(h, limits);
    } else if h[LastExchange(h)].role.Tool? {
      ResultIsOrphaned(h, limits);
    } else {
      forall dropped: set<nat> ensures Paired(Kept(TaskFor(h, limits), Groups(h), dropped)) {
        AnyEvictionIsPaired(h, limits, dropped);
      }
    }
  }

  /****** The identity order is oldest-first ******/

  function From(k: nat, n: nat): (order: seq<nat>)
    requires k <= n
    ensures |order| == n - k && forall i | 0 <= i < |order| :: order[i] == k + i
  {
    seq(n - k, i requires 0 <= i => k + i)
  }

  ghost predicate AllLegal(t: Task, groups: seq<Group>)
    requires Splits(t, groups)
  {
    forall dropped: set<nat> :: t.legal(Kept(t, groups, dropped))
  }

  lemma {:induction false} GroupStart(t: Task, groups: seq<Group>, k: nat)
    requires Splits(t, groups) && k < |groups|
    ensures groups[k].0 == CutAt(groups, k, t.prefix) && t.prefix <= groups[k].0 <= groups[k].1 <= t.last
  {
    TilesFrom(groups, k, t.prefix, t.last);
    TilesBounds(groups, t.prefix, t.last);
    assert groups[k..][0] == groups[k];
  }

  /** Each group is the one the walk of `_drop_oldest` steps over. */
  ghost predicate WalkOf(last: nat, groupEnd: nat -> int, groups: seq<Group>) {
    forall k | 0 <= k < |groups| ::
      groups[k].0 < last && groups[k].1 == groupEnd(groups[k].0)
  }

  ghost predicate WalkSteps(t: Task, groups: seq<Group>) {
    WalkOf(t.last, t.groupEnd, groups)
  }

  lemma {:induction false} GroupsAreWalk(h: seq<Message>, limits: Limits, cut: nat)
    requires WellGrouped(h) && Prefix(h) <= cut <= LastExchange(h)
    ensures WalkOf(LastExchange(h), TaskFor(h, limits).groupEnd, GroupsFrom(h, cut, LastExchange(h)))
    decreases LastExchange(h) - cut
  {
    if cut < LastExchange(h) {
      NextGroup(h, cut);
      var nxt := BoundaryFrom(h, cut + 1);
      GroupsAreWalk(h, limits, nxt);
    }
  }

  lemma {:induction false} WellGroupedTask(h: seq<Message>, limits: Limits)
    requires WellGrouped(h)
    ensures var t := TaskFor(h, limits);
            Splits(t, Groups(h)) && Groups(h) != [] && AllLegal(t, Groups(h)) && WalkSteps(t, Groups(h))
  {
    var t := TaskFor(h, limits);
    GroupsSplit(h, limits);
    forall dropped: set<nat> ensures t.legal(Kept(t, Groups(h), dropped)) {
      AnyEvictionIsPaired(h, limits, dropped);
      NoErrorsIffPaired(Kept(t, Groups(h), dropped));
    }
    GroupsAreWalk(h, limits, Prefix(h));
  }

  ghost predicate Additive(t: Task) {
    t.size([]) == 0 && forall a, b :: t.size(a + b) == t.size(a) + t.size(b)
  }

  lemma {:induction false} SizeIsAdditive(h: seq<Message>, limits: Limits)
    ensures Additive(TaskFor(h, limits))
  {
    var t := TaskFor(h, limits);
    forall a, b ensures t.size(a + b) == t.size(a) + t.size(b) { WeightConcat(a, b, limits.weight); }
  }

  lemma {:induction false} WeightOfOldest(t: Task, groups: seq<Group>, k: nat)
    requires Splits(t, groups) && WalkSteps(t, groups) && Additive(t) && k < |groups|
    ensures t.prefix <= CutAt(groups, k, t.prefix) <= groups[k].1
    ensures t.size(t.h[t.prefix..groups[k].1])
         == t.size(t.h[t.prefix..CutAt(groups, k, t.prefix)]) + GroupWeight(t, groups, k)
  {
    GroupStart(t, groups, k);
    var a, b := groups[k].0, groups[k].1;
    assert t.h[t.prefix..a] + t.h[a..b] == t.h[t.prefix..b];
  }

  lemma {:induction false} WalkStep(t: Task, groups: seq<Group>, k: nat, best: seq<Message>, saved: nat)
    requires Splits(t, groups) && AllLegal(t, groups) && WalkSteps(t, groups) && k < |groups|
    ensures t.prefix <= CutAt(groups, k, t.prefix) && t.prefix <= groups[k].1 <= t.last
    ensures var kept := Kept(t, groups, Below(k + 1));
            var removed := t.size(t.h[t.prefix..groups[k].1]);
            DropFrom(t, CutAt(groups, k, t.prefix), best, saved)
            == if !t.over(kept) then (kept, removed) else DropFrom(t, groups[k].1, kept, removed)
  {
    GroupStart(t, groups, k);
    KeptAfterOldest(t, groups, k + 1);
    assert t.legal(Kept(t, groups, Below(k + 1)));
  }

  lemma {:induction false} EvictionStep(t: Task, groups: seq<Group>, k: nat, best: seq<Message>, saved: nat)
    requires Splits(t, groups) && AllLegal(t, groups) && k < |groups|
    ensures var kept := Kept(t, groups, Below(k + 1));
            var next := Eviction(kept, saved + GroupWeight(t, groups, k), Below(k + 1));
            EvictFrom(t, groups, From(k, |groups|), Eviction(best, saved, Below(k)))
            == if !t.over(kept) then next else EvictFrom(t, groups, From(k + 1, |groups|), next)
  {
    var order := From(k, |groups|);
    assert order[0] == k && order[1..] == From(k + 1, |groups|);
    assert Below(k) + {k} == Below(k + 1);
    assert t.legal(Kept(t, groups, Below(k + 1)));
  }

  ghost predicate Agree(e: Eviction, best: (seq<Message>, nat)) {
    e.messages == best.0 && e.saved == best.1
  }

  lemma {:induction false} IdentityFrom(t: Task, groups: seq<Group>, k: nat, best: seq<Message>, saved: nat)
    requires Splits(t, groups) && AllLegal(t, groups) && WalkSteps(t, groups) && Additive(t)
    requires k < |groups| && t.prefix <= CutAt(groups, k, t.prefix)
    requires saved == t.size(t.h[t.prefix..CutAt(groups, k, t.prefix)])
    ensures Agree(EvictFrom(t, groups, From(k, |groups|), Eviction(best, saved, Below(k))),
                  DropFrom(t, CutAt(groups, k, t.prefix), best, saved))
    decreases |groups| - k
  {
    WalkStep(t, groups, k, best, saved);
    EvictionStep(t, groups, k, best, saved);
    WeightOfOldest(t, groups, k);
    var kept := Kept(t, groups, Below(k + 1));
    if t.over(kept) {
      if k + 1 < |groups| {
        IdentityFrom(t, groups, k + 1, kept, saved + GroupWeight(t, groups, k));
      } else {
        TilesFrom(groups, k + 1, t.prefix, t.last);
      }
    }
  }

  /** Evicting in the identity order returns exactly what oldest-first returns, savings included. */
  lemma {:induction false} IdentityOrderIsOldestFirst(h: seq<Message>, limits: Limits)
    requires WellGrouped(h)
    ensures Splits(TaskFor(h, limits), Groups(h))
    ensures var e := EvictFrom(TaskFor(h, limits), Groups(h), From(0, |Groups(h)|), Eviction(h, 0, {}));
            (e.messages, e.saved) == DroppedOldest(h, limits)
  {
    WellGroupedTask(h, limits);
    assert Below(0) == {};
    assert h[Prefix(h)..Prefix(h)] == [];
    SizeIsAdditive(h, limits);
    IdentityFrom(TaskFor(h, limits), Groups(h), 0, h, 0);
  }

  /****** Both algorithms on any history ******/

  /** The ends of the groups the walk of `_drop_oldest` steps over. */
  function WalkEnds(t: Task, cut: nat): (ends: seq<nat>)
    requires t.Bounded() && t.prefix <= cut
    ensures forall k | 0 <= k < |ends| :: t.prefix <= ends[k] <= t.last
    decreases t.last - cut
  {
    if cut >= t.last || t.groupEnd(cut) > t.last then [] else [t.groupEnd(cut) as nat] + WalkEnds(t, t.groupEnd(cut))
  }

  function WithoutFront(t: Task, end: nat): seq<Message>
    requires t.Bounded() && t.prefix <= end <= t.last
  {
    t.h[..t.prefix] + t.h[end..]
  }

  /** The front up to the `k`-th end is what goes: it leaves a legal history, every shorter front that does
      leaves one over budget, and so, unless it fits, does no longer front. */
  ghost predicate DropsTo(t: Task, ends: seq<nat>, k: nat)
    requires t.Bounded() && (forall k | 0 <= k < |ends| :: t.prefix <= ends[k] <= t.last) && k < |ends|
  {
    && t.legal(WithoutFront(t, ends[k]))
    && (forall j | 0 <= j < k :: t.legal(WithoutFront(t, ends[j])) ==> t.over(WithoutFront(t, ends[j])))
    && (t.over(WithoutFront(t, ends[k])) ==> forall j | k < j < |ends| :: !t.legal(WithoutFront(t, ends[j])))
  }

  lemma {:induction false} DropFromMeans(t: Task, cut: nat, best: seq<Message>, saved: nat) returns (k: nat)
    requires t.Bounded() && t.prefix <= cut
    ensures var ends := WalkEnds(t, cut);
            if k < |ends| then
              && DropsTo(t, ends, k)
              && DropFrom(t, cut, best, saved) == (WithoutFront(t, ends[k]), t.size(t.h[t.prefix..ends[k]]))
            else
              && (forall j | 0 <= j < |ends| :: !t.legal(WithoutFront(t, ends[j])))
              && DropFrom(t, cut, best, saved) == (best, saved)
    decreases t.last - cut
  {
    k := 0;
    if cut < t.last && t.groupEnd(cut) <= t.last {
      var nxt := t.groupEnd(cut);
      var candidate, ends, rest := WithoutFront(t, nxt), WalkEnds(t, cut), WalkEnds(t, nxt);
      assert ends == [nxt as nat] + rest;
      if !t.legal(candidate) {
        k := DropFromMeans(t, nxt, best, saved);
        k := k + 1;
      } else if t.over(candidate) {
        k := DropFromMeans(t, nxt, candidate, t.size(t.h[t.prefix..nxt]));
        k := if k < |rest| then k + 1 else 0;
      }
    }
  }

  /** A history whose last exchange starts right behind the prompt stays as it is, and so does a single
      message. */
  lemma {:induction false} NothingToDrop(h: seq<Message>, limits: Limits)
    requires |h| < 2 || LastExchange(h) <= if h[0].role == System then 1 else 0
    ensures DroppedOldest(h, limits) == (h, 0)
  {
  }

  /** Oldest-first, on any history that has something to drop: which front of groups goes. */
  lemma {:induction false} OldestMeans(h: seq<Message>, limits: Limits) returns (k: nat)
    requires Droppable(h)
    ensures TaskFor(h, limits).Bounded()
    ensures var t, ends := TaskFor(h, limits), WalkEnds(TaskFor(h, limits), Prefix(h));
            if k < |ends| then
              && DropsTo(t, ends, k)
              && DroppedOldest(h, limits) == (h[..Prefix(h)] + h[ends[k]..], Weight(h[Prefix(h)..ends[k]], limits.weight))
            else
              && (forall j | 0 <= j < |ends| :: !t.legal(WithoutFront(t, ends[j])))
              && DroppedOldest(h, limits) == (h, 0)
  {
    DroppableBounded(h, limits);
    k := DropFromMeans(TaskFor(h, limits), Prefix(h), h, 0);
  }

  /** An eviction so far: what is kept is everything but the groups dropped, with their weight saved. */
  ghost predicate Settled(t: Task, groups: seq<Group>, e: Eviction)
    requires Splits(t, groups)
  {
    && e.messages == (if e.dropped == {} then t.h else Kept(t, groups, e.dropped))
    && e.saved + t.size(e.messages) == t.size(t.h)
  }

  lemma {:induction false} EvictFromSettles(t: Task, groups: seq<Group>, order: seq<nat>, sofar: Eviction)
    requires Splits(t, groups) && Additive(t) && NoRepeats(order) && Settled(t, groups, sofar)
    requires Kept(t, groups, {}) == t.h
    requires forall k | 0 <= k < |order| :: order[k] < |groups| && order[k] !in sofar.dropped
    ensures Settled(t, groups, EvictFrom(t, groups, order, sofar))
    decreases |order|
  {
    if order != [] {
      var index, rest := order[0], order[1..];
      var dropped := sofar.dropped + {index};
      var kept := Kept(t, groups, dropped);
      EvictionSize(t, groups, index, sofar.dropped);
      if !t.legal(kept) {
        assert dropped - {index} == sofar.dropped;
        EvictFromSettles(t, groups, rest, sofar);
      } else if t.over(kept) {
        EvictFromSettles(t, groups, rest, Eviction(kept, sofar.saved + GroupWeight(t, groups, index), dropped));
      }
    }
  }

  /** Every group of the order is gone, or could not go, unless the history fits. */
  ghost predicate Exhausts(t: Task, groups: seq<Group>, order: seq<nat>, e: Eviction)
    requires Splits(t, groups)
  {
    t.over(e.messages) ==> forall index: nat | index in order && index !in e.dropped :: LeftForLaw(t, groups, index)
  }

  lemma {:induction false} EvictFromExhausts(t: Task, groups: seq<Group>, order: seq<nat>, sofar: Eviction)
    requires Splits(t, groups) && NoRepeats(order)
    requires forall k | 0 <= k < |order| :: order[k] < |groups| && order[k] !in sofar.dropped
    ensures sofar.dropped <= EvictFrom(t, groups, order, sofar).dropped
    ensures Exhausts(t, groups, order, EvictFrom(t, groups, order, sofar))
    decreases |order|
  {
    if order != [] {
      var index, rest := order[0], order[1..];
      var dropped := sofar.dropped + {index};
      var kept := Kept(t, groups, dropped);
      assert forall i | i in order :: i == index || i in rest;
      if !t.legal(kept) {
        assert LeftForLaw(t, groups, index);
        assert dropped - {index} == sofar.dropped;
        EvictFromExhausts(t, groups, rest, sofar);
      } else if t.over(kept) {
        EvictFromExhausts(t, groups, rest, Eviction(kept, sofar.saved + GroupWeight(t, groups, index), dropped));
      }
    }
  }

  /** At some point dropping the group would have broken the history. */
  ghost predicate LeftForLaw(t: Task, groups: seq<Group>, index: nat)
    requires Splits(t, groups)
  {
    exists dropped: set<nat> :: index !in dropped && !t.legal(Kept(t, groups, dropped + {index}))
  }

  /** Evicting in any order, on any history: what is reported as saved is what went, and a history left over
      budget has kept only groups that could not go. */
  lemma {:induction false} EvictionSettles(h: seq<Message>, order: seq<nat>, limits: Limits)
    requires Prefix(h) < LastExchange(h) < |h|
    requires NoRepeats(order) && forall k | 0 <= k < |order| :: order[k] < |Groups(h)|
    ensures Splits(TaskFor(h, limits), Groups(h))
    ensures var t, e := TaskFor(h, limits), EvictFrom(TaskFor(h, limits), Groups(h), order, Eviction(h, 0, {}));
            && e.saved + Weight(e.messages, limits.weight) == Weight(h, limits.weight)
            && e.messages == (if e.dropped == {} then h else Kept(t, Groups(h), e.dropped))
            && (OverBudget(e.messages, limits) ==> forall i: nat | i in order && i !in e.dropped :: LeftForLaw(t, Groups(h), i))
  {
    GroupsSplit(h, limits);
    SizeIsAdditive(h, limits);
    var t := TaskFor(h, limits);
    KeptAfterOldest(t, Groups(h), 0);
    assert Below(0) == {};
    assert h[..t.prefix] + h[t.prefix..] == h;
    EvictFromSettles(t, Groups(h), order, Eviction(h, 0, {}));
    EvictFromExhausts(t, Groups(h), order, Eviction(h, 0, {}));
    assert Exhausts(t, Groups(h), order, EvictFrom(t, Groups(h), order, Eviction(h, 0, {})));
  }

  /****** Oldest-first stops at the smallest drop that fits ******/

  /** Dropping more than k but fewer than m oldest groups is not enough. */
  ghost predicate AllOver(t: Task, groups: seq<Group>, k: nat, m: nat)
    requires Splits(t, groups) && m <= |groups|
  {
    forall j | k < j < m :: t.over(Kept(t, groups, Below(j)))
  }

  lemma {:induction false} SmallestFrom(t: Task, groups: seq<Group>, k: nat, best: seq<Message>, saved: nat) returns (m: nat)
    requires Splits(t, groups) && AllLegal(t, groups) && WalkSteps(t, groups)
    requires k < |groups| && t.prefix <= CutAt(groups, k, t.prefix) <= t.last
    ensures k < m <= |groups| && t.prefix <= groups[m - 1].1 <= |t.h|
    ensures DropFrom(t, CutAt(groups, k, t.prefix), best, saved)
         == (Kept(t, groups, Below(m)), t.size(t.h[t.prefix..groups[m - 1].1]))
    ensures AllOver(t, groups, k, m)
    ensures m == |groups| || !t.over(Kept(t, groups, Below(m)))
    decreases |groups| - k
  {
    WalkStep(t, groups, k, best, saved);
    m := k + 1;
    var kept := Kept(t, groups, Below(m));
    if t.over(kept) {
      if m < |groups| {
        m := SmallestFrom(t, groups, m, kept, t.size(t.h[t.prefix..groups[k].1]));
      } else {
        TilesFrom(groups, m, t.prefix, t.last);
      }
    }
  }

  /** Some number m of oldest groups goes: every smaller number leaves the history over budget, and
      m itself fits unless it is all of them. The saving reported is the weight of what went. */
  lemma {:induction false} OldestStopsAtSmallest(h: seq<Message>, limits: Limits) returns (m: nat)
    requires WellGrouped(h)
    ensures Splits(TaskFor(h, limits), Groups(h))
    ensures 1 <= m <= |Groups(h)| && Prefix(h) <= Groups(h)[m - 1].1
    ensures DroppedOldest(h, limits)
         == (Kept(TaskFor(h, limits), Groups(h), Below(m)), Weight(h[Prefix(h)..Groups(h)[m - 1].1], limits.weight))
    ensures forall j | 1 <= j < m :: OverBudget(Kept(TaskFor(h, limits), Groups(h), Below(j)), limits)
    ensures m == |Groups(h)| || !OverBudget(Kept(TaskFor(h, limits), Groups(h), Below(m)), limits)
  {
    WellGroupedTask(h, limits);
    m := SmallestFrom(TaskFor(h, limits), Groups(h), 0, h, 0);
    forall j | 1 <= j < m ensures OverBudget(Kept(TaskFor(h, limits), Groups(h), Below(j)), limits) {
      assert TaskFor(h, limits).over(Kept(TaskFor(h, limits), Groups(h), Below(j)));
    }
  }

  /****** Any full order ends under budget or at the minimum ******/

  /** The least the stage can keep: the system prompt and the last exchange. */
  function Minimum(h: seq<Message>): seq<Message>
    requires Prefix(h) <= |h| && LastExchange(h) <= |h|
  {
    h[..Prefix(h)] + h[LastExchange(h)..]
  }

  ghost predicate NoRepeats(order: seq<nat>) {
    forall i, j | 0 <= i < j < |order| :: order[i] != order[j]
  }

  /** Each of the n groups is exactly once in `order` or already dropped. */
  ghost predicate Remaining(n: nat, order: seq<nat>, dropped: set<nat>) {
    && NoRepeats(order)
    && (forall k | 0 <= k < |order| :: order[k] < n && order[k] !in dropped)
    && (forall i: nat | i < n :: i in order || i in dropped)
  }

  lemma {:induction false} RemainingStep(n: nat, order: seq<nat>, dropped: set<nat>)
    requires Remaining(n, order, dropped) && order != []
    ensures Remaining(n, order[1..], dropped + {order[0]})
  {
    forall i: nat | i < n ensures i in order[1..] || i in dropped + {order[0]} {
      if i in order && i != order[0] {
        var k :| 0 <= k < |order| && order[k] == i;
        assert order[1..][k - 1] == i;
      }
    }
  }

  lemma {:induction false} KeptSize(t: Task, groups: seq<Group>, i: nat, index: nat, dropped: set<nat>)
    requires Additive(t) && InRange(t.h, groups)
    requires i <= |groups| && index < |groups| && index !in dropped
    ensures t.size(KeptGroups(t.h, groups, i, dropped))
         == t.size(KeptGroups(t.h, groups, i, dropped + {index})) + (if i <= index then GroupWeight(t, groups, index) else 0)
    decreases |groups| - i
  {
    if i < |groups| {
      KeptSize(t, groups, i + 1, index, dropped);
    }
  }

  lemma {:induction false} EvictionSize(t: Task, groups: seq<Group>, index: nat, dropped: set<nat>)
    requires Additive(t) && Splits(t, groups) && index < |groups| && index !in dropped
    ensures t.size(Kept(t, groups, dropped)) == t.size(Kept(t, groups, dropped + {index})) + GroupWeight(t, groups, index)
  {
    KeptSize(t, groups, 0, index, dropped);
  }

  /** The state of an eviction: what is kept, with every removed message accounted for. */
  ghost predicate Accounted(t: Task, groups: seq<Group>, e: Eviction)
    requires Splits(t, groups)
  {
    e.messages == Kept(t, groups, e.dropped) && e.saved + t.size(e.messages) == t.size(t.h)
  }

  function Evicted(t: Task, groups: seq<Group>, index: nat, sofar: Eviction): Eviction
    requires Splits(t, groups) && index < |groups|
  {
    var dropped := sofar.dropped + {index};
    Eviction(Kept(t, groups, dropped), sofar.saved + GroupWeight(t, groups, index), dropped)
  }

  lemma {:induction false} EvictOne(t: Task, groups: seq<Group>, order: seq<nat>, sofar: Eviction)
    requires Splits(t, groups) && AllLegal(t, groups) && Additive(t)
    requires Remaining(|groups|, order, sofar.dropped) && Accounted(t, groups, sofar) && order != []
    ensures var e := Evicted(t, groups, order[0], sofar);
            && Accounted(t, groups, e) && Remaining(|groups|, order[1..], e.dropped)
            && EvictFrom(t, groups, order, sofar) == if t.over(e.messages) then EvictFrom(t, groups, order[1..], e) else e
  {
    assert t.legal(Kept(t, groups, sofar.dropped + {order[0]}));
    EvictionSize(t, groups, order[0], sofar.dropped);
    RemainingStep(|groups|, order, sofar.dropped);
  }

  lemma {:induction false} NothingRemains(t: Task, groups: seq<Group>, e: Eviction)
    requires Splits(t, groups) && Accounted(t, groups, e) && Remaining(|groups|, [], e.dropped)
    ensures e.messages == t.h[..t.prefix] + t.h[t.last..]
  {
    KeptSkips(t.h, groups, 0, |groups|, e.dropped);
  }

  lemma {:induction false} OutcomeFrom(t: Task, groups: seq<Group>, order: seq<nat>, sofar: Eviction) returns (e: Eviction)
    requires Splits(t, groups) && AllLegal(t, groups) && Additive(t)
    requires Remaining(|groups|, order, sofar.dropped) && Accounted(t, groups, sofar)
    ensures e == EvictFrom(t, groups, order, sofar)
    ensures Accounted(t, groups, e)
    ensures (order != [] && !t.over(e.messages)) || e.messages == t.h[..t.prefix] + t.h[t.last..]
    decreases |order|
  {
    if order == [] {
      e := sofar;
      NothingRemains(t, groups, e);
    } else {
      EvictOne(t, groups, order, sofar);
      e := Evicted(t, groups, order[0], sofar);
      if t.over(e.messages) {
        e := OutcomeFrom(t, groups, order[1..], e);
      }
    }
  }

  /** Whatever order a judge gives, eviction ends under budget or at the minimum, reports exactly the
      weight it removed, and gets under budget exactly when the minimum does. */
  lemma {:induction false} EvictionOutcome(h: seq<Message>, order: seq<nat>, limits: Limits)
    requires WellGrouped(h) && Remaining(|Groups(h)|, order, {})
    ensures Splits(TaskFor(h, limits), Groups(h))
    ensures var e := EvictFrom(TaskFor(h, limits), Groups(h), order, Eviction(h, 0, {}));
            && Paired(e.messages)
            && (!OverBudget(e.messages, limits) || e.messages == Minimum(h))
            && e.saved + Weight(e.messages, limits.weight) == Weight(h, limits.weight)
            && (limits.ratio >= 0.0 ==> (OverBudget(e.messages, limits) <==> OverBudget(Minimum(h), limits)))
  {
    WellGroupedTask(h, limits);
    var t, groups := TaskFor(h, limits), Groups(h);
    SizeIsAdditive(h, limits);
    KeptAfterOldest(t, groups, 0);
    assert h[..t.prefix] + h[t.prefix..] == h;
    var e := OutcomeFrom(t, groups, order, Eviction(h, 0, {}));
    AnyEvictionIsPaired(h, limits, e.dropped);
    if limits.ratio >= 0.0 && OverBudget(Minimum(h), limits) {
      DroppingHelps(h[..t.prefix], KeptGroups(h, groups, 0, e.dropped), h[t.last..], limits);
    }
  }

  /** The first `m` groups of an order. */
  function Front(order: seq<nat>, m: nat): set<nat>
    requires m <= |order|
  {
    set k | 0 <= k < m :: order[k]
  }

  lemma {:induction false} StopsFrom(t: Task, groups: seq<Group>, order: seq<nat>, k: nat, sofar: Eviction) returns (m: nat)
    requires Splits(t, groups) && AllLegal(t, groups) && k < |order| && sofar.dropped == Front(order, k)
    requires forall i | 0 <= i < |order| :: order[i] < |groups|
    ensures k < m <= |order|
    ensures EvictFrom(t, groups, order[k..], sofar).messages == Kept(t, groups, Front(order, m))
    ensures forall j | k < j < m :: t.over(Kept(t, groups, Front(order, j)))
    ensures m == |order| || !t.over(Kept(t, groups, Front(order, m)))
    decreases |order| - k
  {
    m := k + 1;
    EvictNext(t, groups, order, k, sofar);
    assert sofar.dropped + {order[k]} == Front(order, m);
    var kept := Kept(t, groups, Front(order, m));
    assert t.legal(kept);
    if t.over(kept) {
      var next := Eviction(kept, sofar.saved + GroupWeight(t, groups, order[k]), Front(order, m));
      if m < |order| {
        m := StopsFrom(t, groups, order, m, next);
      } else {
        assert order[m..] == [];
      }
    }
  }

  /** In whatever order, eviction drops the smallest non-empty front of it that fits, or all groups. */
  lemma {:induction false} EvictionStopsAtSmallest(h: seq<Message>, order: seq<nat>, limits: Limits) returns (m: nat)
    requires WellGrouped(h) && Remaining(|Groups(h)|, order, {})
    ensures Splits(TaskFor(h, limits), Groups(h))
    ensures 1 <= m <= |order|
    ensures EvictFrom(TaskFor(h, limits), Groups(h), order, Eviction(h, 0, {})).messages
         == Kept(TaskFor(h, limits), Groups(h), Front(order, m))
    ensures forall j | 1 <= j < m :: OverBudget(Kept(TaskFor(h, limits), Groups(h), Front(order, j)), limits)
    ensures m == |order| || !OverBudget(Kept(TaskFor(h, limits), Groups(h), Front(order, m)), limits)
  {
    WellGroupedTask(h, limits);
    GroupsSplit(h, limits);
    var t := TaskFor(h, limits);
    assert 0 in order;
    assert order[0..] == order;
    m := StopsFrom(t, Groups(h), order, 0, Eviction(h, 0, {}));
    forall j | 1 <= j < m ensures OverBudget(Kept(t, Groups(h), Front(order, j)), limits) {
      assert t.over(Kept(t, Groups(h), Front(order, j)));
    }
  }

  /** The same outcome for oldest-first, so the two algorithms succeed on the same histories. */
  lemma {:induction false} OldestOutcome(h: seq<Message>, limits: Limits)
    requires WellGrouped(h)
    ensures var (best, saved) := DroppedOldest(h, limits);
            && Paired(best)
            && (!OverBudget(best, limits) || best == Minimum(h))
            && saved + Weight(best, limits.weight) == Weight(h, limits.weight)
            && (limits.ratio >= 0.0 ==> (OverBudget(best, limits) <==> OverBudget(Minimum(h), limits)))
  {
    var order := From(0, |Groups(h)|);
    forall i: nat | i < |Groups(h)| ensures i in order { assert order[i] == i; }
    IdentityOrderIsOldestFirst(h, limits);
    EvictionOutcome(h, order, limits);
  }
}
