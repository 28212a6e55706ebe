/** What the event queue guarantees over every run of puts and takes. */
module SubscriberProofs {
  import opened Subscribers

  datatype Op = Put(e: Event) | Take

  /** A run so far. `overwritten` counts events put by the engine that a collapse replaced by its
      notice; `reported` adds up the counts of all recovery notices queued; `oversize` says whether a
      streaming event larger than the byte ceiling was ever put. */
  datatype Run = Run(state: State, puts: seq<Event>, delivered: seq<Event>,
                     collapses: nat, overwritten: nat, reported: nat, oversize: bool)

  const START := Run(State([], 0, false), [], [], 0, 0, 0, false)

  predicate Collapses(c: Ceiling, s: State, e: Event) {
    !e.Streaming? && |AfterEviction(c, s, Size(e)).items| >= c.capacity
  }

  function LastFromClient(items: seq<Event>): nat {
    if items != [] && FromClient(items[|items| - 1]) then 1 else 0
  }

  function AfterPut(c: Ceiling, r: Run, e: Event): Run {
    var collapsed := Collapses(c, r.state, e);
    r.(state := PutIn(c, r.state, e),
       puts := r.puts + [e],
       collapses := r.collapses + (if collapsed then 1 else 0),
       overwritten := r.overwritten + (if collapsed then LastFromClient(AfterEviction(c, r.state, Size(e)).items) else 0),
       oversize := r.oversize || (e.Streaming? && e.size > c.maxBytes))
  }

  function Notes(s: State): nat {
    if s.items != [] && |s.items| - 1 <= RECOVERY_MARK then s.dropped else 0
  }

  function AfterTake(r: Run): Run {
    if r.state.items == [] then r
    else r.(state := TakeFrom(r.state),
            delivered := r.delivered + [r.state.items[0]],
            reported := r.reported + Notes(r.state))
  }

  function After(c: Ceiling, ops: seq<Op>): Run {
    if ops == [] then START
    else
      var r := After(c, ops[..|ops| - 1]);
      match ops[|ops| - 1]
      case Put(e) => AfterPut(c, r, e)
      case Take => AfterTake(r)
  }

  /****** Sequences of events ******/

  function Select(items: seq<Event>, kind: Event -> bool): (r: seq<Event>)
    ensures |r| <= |items|
  {
    if items == [] then []
    else Select(items[..|items| - 1], kind) + (if kind(items[|items| - 1]) then [items[|items| - 1]] else [])
  }

  predicate IsDurable(e: Event) { e.Durable? }

  /** The total of the recovery notices among the events. */
  function Reports(items: seq<Event>): nat {
    if items == [] then 0
    else Reports(items[..|items| - 1]) + (match items[|items| - 1] case Recovery(n) => n case _ => 0)
  }

  ghost predicate Subsequence(a: seq<Event>, b: seq<Event>) {
    a == [] || (b != [] && (Subsequence(a, b[..|b| - 1])
                            || (a[|a| - 1] == b[|b| - 1] && Subsequence(a[..|a| - 1], b[..|b| - 1]))))
  }

  lemma {:induction false} SelectConcat(a: seq<Event>, b: seq<Event>, kind: Event -> bool)
    ensures Select(a + b, kind) == Select(a, kind) + Select(b, kind)
    ensures Reports(a + b) == Reports(a) + Reports(b)
  {
    if b == [] {
      assert a + b == a;
    } else {
      assert (a + b)[..|a + b| - 1] == a + b[..|b| - 1];
      SelectConcat(a, b[..|b| - 1], kind);
    }
  }

  lemma {:induction false} SelectOne(e: Event, kind: Event -> bool)
    ensures Select([e], kind) == if kind(e) then [e] else []
    ensures Reports([e]) == if e.Recovery? then e.count else 0
  {
    assert [e][..0] == [];
  }

  lemma {:induction false} SubsequenceRefl(a: seq<Event>)
    ensures Subsequence(a, a)
  {
    if a != [] { SubsequenceRefl(a[..|a| - 1]); }
  }

  lemma {:induction false} SubsequenceTrans(a: seq<Event>, b: seq<Event>, d: seq<Event>)
    requires Subsequence(a, b) && Subsequence(b, d)
    ensures Subsequence(a, d)
    decreases |d|
  {
    if a != [] && b != [] {
      var d' := d[..|d| - 1];
      if Subsequence(b, d') {
        SubsequenceTrans(a, b, d');
      } else if Subsequence(a, b[..|b| - 1]) {
        SubsequenceTrans(a, b[..|b| - 1], d');
      } else {
        SubsequenceTrans(a[..|a| - 1], b[..|b| - 1], d');
      }
    }
  }

  lemma {:induction false} SubsequenceAppend(a: seq<Event>, b: seq<Event>, e: Event)
    requires Subsequence(a, b)
    ensures Subsequence(a, b + [e]) && Subsequence(a + [e], b + [e])
  {
    assert (b + [e])[..|b|] == b && (a + [e])[..|a|] == a;
  }

  lemma {:induction false} SubsequenceConcat(p: seq<Event>, a: seq<Event>, b: seq<Event>)
    requires Subsequence(a, b)
    ensures Subsequence(p + a, p + b)
    decreases |b|
  {
    if b == [] {
      SubsequenceRefl(p + a);
    } else {
      var b' := b[..|b| - 1];
      assert (p + b)[..|p + b| - 1] == p + b';
      if Subsequence(a, b') {
        SubsequenceConcat(p, a, b');
      } else if a == [] {
        SubsequenceConcat(p, a, b');
      } else {
        SubsequenceConcat(p, a[..|a| - 1], b');
        assert (p + a)[..|p + a| - 1] == p + a[..|a| - 1];
      }
    }
  }

  lemma {:induction false} SelectSubsequence(a: seq<Event>, b: seq<Event>, kind: Event -> bool)
    requires Subsequence(a, b)
    ensures Subsequence(Select(a, kind), Select(b, kind))
    decreases |b|
  {
    if a != [] {
      var b', e := b[..|b| - 1], b[|b| - 1];
      if Subsequence(a, b') {
        SelectSubsequence(a, b', kind);
        SelectLast(b, kind);
        SubsequenceAppend(Select(a, kind), Select(b', kind), e);
      } else {
        SelectSubsequence(a[..|a| - 1], b', kind);
        SelectLast(a, kind);
        SelectLast(b, kind);
        SubsequenceAppend(Select(a[..|a| - 1], kind), Select(b', kind), e);
      }
    }
  }

  lemma {:induction false} SelectLast(b: seq<Event>, kind: Event -> bool)
    requires b != []
    ensures var front, e := b[..|b| - 1], b[|b| - 1];
            Select(b, kind) == if kind(e) then Select(front, kind) + [e] else Select(front, kind)
  {
  }

  /****** What eviction keeps ******/

  lemma {:induction false} EvictKeeps(c: Ceiling, front: seq<Event>, back: seq<Event>, needed: nat)
    ensures var kept := Evict(c, front, back, needed);
            && Subsequence(kept, front + back)
            && (forall kind: Event -> bool :: (forall e :: kind(e) ==> !e.Streaming?) ==>
                  Select(kept, kind) == Select(front + back, kind))
            && Reports(kept) == Reports(front + back)
            && |Select(kept, FromClient)| + (|front + back| - |kept|) == |Select(front + back, FromClient)|
    decreases |front|
  {
    var all := front + back;
    if front == [] || !Over(c, all, needed) {
      SubsequenceRefl(all);
    } else {
      var last, rest := front[|front| - 1], front[..|front| - 1];
      assert all == rest + ([last] + back);
      if last.Streaming? {
        EvictKeeps(c, rest, back, needed);
        SubsequenceAppend(back, back, last) by { SubsequenceRefl(back); }
        RemoveOne(rest, last, back);
        SubsequenceTrans(Evict(c, front, back, needed), rest + back, all);
      } else {
        EvictKeeps(c, rest, [last] + back, needed);
      }
    }
  }

  lemma {:induction false} RemoveOne(a: seq<Event>, e: Event, b: seq<Event>)
    ensures Subsequence(a + b, a + ([e] + b))
    ensures Reports(a + ([e] + b)) == Reports(a + b) + (if e.Recovery? then e.count else 0)
    ensures forall kind: Event -> bool ::
              |Select(a + ([e] + b), kind)| == |Select(a + b, kind)| + (if kind(e) then 1 else 0)
              && (!kind(e) ==> Select(a + ([e] + b), kind) == Select(a + b, kind))
  {
    DropHead(e, b);
    SubsequenceConcat(a, b, [e] + b);
    forall kind: Event -> bool
      ensures |Select(a + ([e] + b), kind)| == |Select(a + b, kind)| + (if kind(e) then 1 else 0)
      ensures !kind(e) ==> Select(a + ([e] + b), kind) == Select(a + b, kind)
      ensures Reports(a + ([e] + b)) == Reports(a + b) + (if e.Recovery? then e.count else 0)
    {
      SelectConcat(a, [e] + b, kind);
      SelectConcat([e], b, kind);
      SelectOne(e, kind);
      SelectConcat(a, b, kind);
    }
    SelectConcat(a, [e] + b, FromClient);
    SelectConcat([e], b, FromClient);
    SelectOne(e, FromClient);
    SelectConcat(a, b, FromClient);
  }

  lemma {:induction false} DropHead(e: Event, b: seq<Event>)
    ensures Subsequence(b, [e] + b)
  {
    if b != [] {
      DropHead(e, b[..|b| - 1]);
      assert ([e] + b)[..|b|] == [e] + b[..|b| - 1];
    }
  }

  predicate IsFixed(e: Event) { !e.Streaming? }

  lemma {:induction false} FixedAll(items: seq<Event>)
    ensures NoStreaming(items) <==> Select(items, IsFixed) == items
    ensures |Select(items, IsFixed)| == |items| ==> Select(items, IsFixed) == items
  {
    if items != [] {
      var front := items[..|items| - 1];
      FixedAll(front);
      assert items == front + [items[|items| - 1]];
      if NoStreaming(items) { assert NoStreaming(front) by { forall k | 0 <= k < |front| ensures !front[k].Streaming? { assert front[k] == items[k]; } } }
      SelectLast(items, IsFixed);
      if Select(items, IsFixed) == items {
        assert IsFixed(items[|items| - 1]);
      }
    }
  }

  /** The queue collapses on a durable event exactly when the events it may not drop already fill it. */
  lemma {:induction false} CollapseIffFull(c: Ceiling, s: State, e: Event)
    requires e.Durable?
    ensures Collapses(c, s, e) <==> |Select(s.items, IsFixed)| >= c.capacity
  {
    var kept := Evict(c, s.items, [], Size(e));
    assert s.items + [] == s.items;
    EvictKeeps(c, s.items, [], Size(e));
    EvictExhausts(c, s.items, [], Size(e));
    assert forall e :: IsFixed(e) ==> !e.Streaming?;
    assert Select(kept, IsFixed) == Select(s.items, IsFixed);
    if |kept| >= c.capacity {
      assert Over(c, kept, Size(e));
      FixedAll(kept);
    }
  }

  /****** The invariant of every run ******/

  function Seen(r: Run): seq<Event> {
    r.delivered + r.state.items
  }

  ghost predicate Ordered(r: Run) {
    Subsequence(Select(Seen(r), FromClient), r.puts)
  }

  /** Every event put is delivered, queued, reported as dropped, counted as dropped, or overwritten. */
  ghost predicate Balanced(r: Run) {
    && |r.puts| == |Select(Seen(r), FromClient)| + r.reported + r.state.dropped + r.overwritten
    && r.overwritten <= r.collapses
  }

  ghost predicate DurableSafe(r: Run) {
    && |Select(r.puts, IsDurable)| == |Select(Seen(r), IsDurable)| + r.collapses + r.overwritten
    && (r.collapses == 0 ==> Select(r.puts, IsDurable) == Select(Seen(r), IsDurable))
    && (r.collapses == 0 ==> r.reported == Reports(Seen(r)))
  }

  ghost predicate Bounded(c: Ceiling, r: Run) {
    |r.state.items| <= (if c.capacity > 1 then c.capacity else 1)
  }

  /** Nothing is dropped silently: with drops pending there is still something to take. An overflow is
      pending only while drops are. */
  ghost predicate Pending(c: Ceiling, r: Run) {
    && (c.capacity >= 1 && c.maxBytes >= 0 && !r.oversize && r.state.dropped > 0 ==> r.state.items != [])
    && (r.state.overflowed ==> r.state.dropped > 0)
  }

  ghost predicate Inv(c: Ceiling, r: Run) {
    Ordered(r) && Balanced(r) && DurableSafe(r) && Bounded(c, r) && Pending(c, r)
  }

  ghost predicate ClientOps(ops: seq<Op>) {
    forall k | 0 <= k < |ops| :: ops[k].Put? ==> FromClient(ops[k].e)
  }

  ghost predicate Core(r: Run) {
    Ordered(r) && Balanced(r) && DurableSafe(r)
  }

  lemma {:induction false} EvictionKeepsCore(c: Ceiling, r: Run, needed: nat)
    requires Core(r)
    ensures Core(r.(state := AfterEviction(c, r.state, needed)))
  {
    var items := r.state.items;
    var kept := Evict(c, items, [], needed);
    assert items + [] == items;
    EvictKeeps(c, items, [], needed);
    EvictShrinks(c, items, [], needed);
    SelectSubsequence(kept, items, FromClient);
    SeenParts(r.delivered, items);
    SeenParts(r.delivered, kept);
    SubsequenceConcat(Select(r.delivered, FromClient), Select(kept, FromClient), Select(items, FromClient));
    SubsequenceTrans(Select(r.delivered + kept, FromClient), Select(r.delivered + items, FromClient), r.puts);
  }

  lemma {:induction false} SeenParts(a: seq<Event>, b: seq<Event>)
    ensures Select(a + b, FromClient) == Select(a, FromClient) + Select(b, FromClient)
    ensures Select(a + b, IsDurable) == Select(a, IsDurable) + Select(b, IsDurable)
    ensures Reports(a + b) == Reports(a) + Reports(b)
  {
    SelectConcat(a, b, FromClient);
    SelectConcat(a, b, IsDurable);
  }

  lemma {:induction false} OneMore(a: seq<Event>, e: Event)
    ensures Select(a + [e], FromClient) == Select(a, FromClient) + (if FromClient(e) then [e] else [])
    ensures Select(a + [e], IsDurable) == Select(a, IsDurable) + (if e.Durable? then [e] else [])
    ensures Reports(a + [e]) == Reports(a) + (if e.Recovery? then e.count else 0)
  {
    SeenParts(a, [e]);
    SelectOne(e, FromClient);
    SelectOne(e, IsDurable);
  }

  lemma {:induction false} AppendKeepsCore(r: Run, e: Event)
    requires Core(r) && FromClient(e)
    ensures Core(r.(state := r.state.(items := r.state.items + [e]), puts := r.puts + [e]))
  {
    OneMore(Seen(r), e);
    OneMore(r.puts, e);
    assert r.delivered + (r.state.items + [e]) == Seen(r) + [e];
    SubsequenceAppend(Select(Seen(r), FromClient), r.puts, e);
  }

  lemma {:induction false} RefusalKeepsCore(r: Run, e: Event)
    requires Core(r) && e.Streaming?
    ensures Core(r.(state := r.state.(dropped := r.state.dropped + 1), puts := r.puts + [e]))
  {
    OneMore(r.puts, e);
    assert Select(r.puts, IsDurable) + [] == Select(r.puts, IsDurable);
    SubsequenceAppend(Select(Seen(r), FromClient), r.puts, e);
  }

  lemma {:induction false} CollapseEmpty(r: Run, e: Event)
    requires Core(r) && e.Durable? && r.state.items == []
    ensures Core(r.(state := Collapse(r.state), puts := r.puts + [e], collapses := r.collapses + 1))
  {
    OneMore(r.puts, e);
    SubsequenceAppend(Select(Seen(r), FromClient), r.puts, e);
    OneMore(r.delivered, Overflow(r.state.dropped + 1));
    assert r.delivered + [] == r.delivered;
    assert Select(r.delivered, FromClient) + [] == Select(r.delivered, FromClient);
    assert Select(r.delivered, IsDurable) + [] == Select(r.delivered, IsDurable);
  }

  /** What the streams look like when the last queued event gives way to a notice. */
  lemma {:induction false} ReplaceLast(base: seq<Event>, last: Event, n: nat, puts: seq<Event>)
    requires Subsequence(Select(base + [last], FromClient), puts) && !last.Streaming?
    ensures Subsequence(Select(base + [Overflow(n)], FromClient), puts)
    ensures |Select(base + [last], FromClient)| == |Select(base + [Overflow(n)], FromClient)| + (if FromClient(last) then 1 else 0)
    ensures |Select(base + [last], IsDurable)| == |Select(base + [Overflow(n)], IsDurable)| + (if FromClient(last) then 1 else 0)
  {
    OneMore(base, last);
    OneMore(base, Overflow(n));
    var clients := Select(base, FromClient);
    assert clients + [] == clients && Select(base, IsDurable) + [] == Select(base, IsDurable);
    SubsequenceRefl(clients);
    SubsequenceAppend(clients, clients, last);
    SubsequenceTrans(clients, Select(base + [last], FromClient), puts);
  }

  lemma {:induction false} CollapseFull(r: Run, e: Event, after: Run, base: seq<Event>, last: Event)
    requires Core(r) && e.Durable? && !last.Streaming? && Seen(r) == base + [last]
    requires Seen(after) == base + [Overflow(r.state.dropped + 1)] && after.puts == r.puts + [e]
    requires after.state.dropped == r.state.dropped + 1 && after.reported == r.reported
    requires after.collapses == r.collapses + 1
    requires after.overwritten == r.overwritten + (if FromClient(last) then 1 else 0)
    ensures Core(after)
  {
    ReplaceLast(base, last, r.state.dropped + 1, r.puts);
    OneMore(r.puts, e);
    SubsequenceAppend(Select(Seen(after), FromClient), r.puts, e);
  }

  lemma {:induction false} CollapseOutcome(r: Run, e: Event, after: Run)
    requires Core(r) && e.Durable? && NoStreaming(r.state.items)
    requires after.state == Collapse(r.state) && after.delivered == r.delivered && after.puts == r.puts + [e]
    requires after.collapses == r.collapses + 1 && after.reported == r.reported
    requires after.overwritten == r.overwritten + LastFromClient(r.state.items)
    ensures Core(after)
  {
    var items := r.state.items;
    if items == [] {
      CollapseEmpty(r, e);
    } else {
      var front, last := items[..|items| - 1], items[|items| - 1];
      var notice := Overflow(r.state.dropped + 1);
      assert items == front + [last];
      assert Seen(r) == (r.delivered + front) + [last];
      assert Seen(after) == (r.delivered + front) + [notice];
      CollapseFull(r, e, after, r.delivered + front, last);
    }
  }

  lemma {:induction false} CollapseKeepsCore(c: Ceiling, r: Run, e: Event)
    requires Core(r) && e.Durable? && Collapses(c, r.state, e)
    ensures Core(AfterPut(c, r, e))
  {
    EvictionKeepsCore(c, r, Size(e));
    FullMeansFixed(c, r.state, Size(e));
    CollapseOutcome(r.(state := AfterEviction(c, r.state, Size(e))), e, AfterPut(c, r, e));
  }

  lemma {:induction false} DurableKeepsCore(c: Ceiling, r: Run, e: Event)
    requires Core(r) && e.Durable? && !Collapses(c, r.state, e)
    ensures Core(AfterPut(c, r, e))
  {
    EvictionKeepsCore(c, r, Size(e));
    AppendKeepsCore(r.(state := AfterEviction(c, r.state, Size(e))), e);
  }

  lemma {:induction false} StreamingKeepsCore(c: Ceiling, r: Run, e: Event)
    requires Core(r) && e.Streaming?
    ensures Core(AfterPut(c, r, e))
  {
    if Over(c, r.state.items, e.size) { RefusalKeepsCore(r, e); } else { AppendKeepsCore(r, e); }
  }

  lemma {:induction false} PutKeepsBounds(c: Ceiling, r: Run, e: Event)
    requires Bounded(c, r) && Pending(c, r) && FromClient(e)
    ensures Bounded(c, AfterPut(c, r, e)) && Pending(c, AfterPut(c, r, e))
  {
    EvictShrinks(c, r.state.items, [], Size(e));
  }

  lemma {:induction false} PutKeepsInv(c: Ceiling, r: Run, e: Event)
    requires Inv(c, r) && FromClient(e)
    ensures Inv(c, AfterPut(c, r, e))
  {
    PutKeepsBounds(c, r, e);
    if e.Streaming? {
      StreamingKeepsCore(c, r, e);
    } else if Collapses(c, r.state, e) {
      CollapseKeepsCore(c, r, e);
    } else {
      DurableKeepsCore(c, r, e);
    }
  }

  lemma {:induction false} DeliverKeepsCore(r: Run)
    requires Core(r) && r.state.items != []
    ensures Core(r.(state := r.state.(items := r.state.items[1..]), delivered := r.delivered + [r.state.items[0]]))
  {
    assert r.delivered + [r.state.items[0]] + r.state.items[1..] == Seen(r);
  }

  lemma {:induction false} NoteKeepsCore(r: Run)
    requires Core(r)
    ensures Core(r.(state := State(r.state.items + [Recovery(r.state.dropped)], 0, false), reported := r.reported + r.state.dropped))
  {
    OneMore(Seen(r), Recovery(r.state.dropped));
    assert r.delivered + (r.state.items + [Recovery(r.state.dropped)]) == Seen(r) + [Recovery(r.state.dropped)];
    assert Select(Seen(r), FromClient) + [] == Select(Seen(r), FromClient);
    assert Select(Seen(r), IsDurable) + [] == Select(Seen(r), IsDurable);
  }

  lemma {:induction false} TakeKeepsInv(c: Ceiling, r: Run)
    requires Inv(c, r)
    ensures Inv(c, AfterTake(r))
  {
    if r.state.items != [] {
      DeliverKeepsCore(r);
      var taken := r.(state := r.state.(items := r.state.items[1..]), delivered := r.delivered + [r.state.items[0]]);
      if Notes(r.state) > 0 { NoteKeepsCore(taken); }
    }
  }

  /** Over every run: the order of puts is kept, every event is accounted for, durable events are lost
      only in collapses, the queue stays within its capacity, and drops pending mean events pending. */
  lemma {:induction false} EveryRunIsSafe(c: Ceiling, ops: seq<Op>)
    requires ClientOps(ops)
    ensures Inv(c, After(c, ops))
  {
    if ops != [] {
      var before := ops[..|ops| - 1];
      assert ClientOps(before) by { forall k | 0 <= k < |before| && before[k].Put? ensures FromClient(before[k].e) { assert before[k] == ops[k]; } }
      EveryRunIsSafe(c, before);
      match ops[|ops| - 1]
      case Put(e) => PutKeepsInv(c, After(c, before), e);
      case Take => TakeKeepsInv(c, After(c, before));
    } else {
      assert [] + START.state.items == [];
    }
  }

  /****** What a client can rely on ******/

  /** A client that has drained its queue, in a run without a collapse, has been handed every durable
      event in order and a notice for every event it did not get. */
  lemma {:induction false} DrainedClientKnowsAll(c: Ceiling, ops: seq<Op>)
    requires ClientOps(ops) && c.capacity >= 1 && c.maxBytes >= 0
    requires var r := After(c, ops); r.state.items == [] && r.collapses == 0 && !r.oversize
    ensures var r := After(c, ops);
            && Select(r.delivered, IsDurable) == Select(r.puts, IsDurable)
            && |r.puts| == |Select(r.delivered, FromClient)| + Reports(r.delivered)
            && Subsequence(Select(r.delivered, FromClient), r.puts)
  {
    EveryRunIsSafe(c, ops);
    var r := After(c, ops);
    assert r.delivered + [] == r.delivered;
  }

  /** The size condition is needed exactly: whenever the queue is empty and no drop is pending, a
      streaming event is dropped without trace if and only if it is larger than the byte ceiling. */
  lemma {:induction false} SilentDropIff(c: Ceiling, ops: seq<Op>, e: Event)
    requires c.capacity >= 1 && e.Streaming?
    requires After(c, ops).state.items == [] && After(c, ops).state.dropped == 0
    ensures var r := After(c, ops + [Put(e)]);
            r.state.dropped > 0 && r.state.items == [] <==> e.size > c.maxBytes
  {
    assert (ops + [Put(e)])[..|ops|] == ops;
    assert After(c, ops + [Put(e)]) == AfterPut(c, After(c, ops), e);
  }

  /** After a durable event that does not collapse the queue, it is within its bytes or holds nothing that
      may be dropped. */
  lemma {:induction false} DurableWithinBytes(c: Ceiling, ops: seq<Op>, e: Event)
    requires e.Durable? && After(c, ops + [Put(e)]).collapses == After(c, ops).collapses
    ensures var items := After(c, ops + [Put(e)]).state.items;
            items != [] && items[|items| - 1] == e && (Bytes(items) <= c.maxBytes || NoStreaming(items))
  {
    var r := After(c, ops);
    assert (ops + [Put(e)])[..|ops|] == ops;
    assert After(c, ops + [Put(e)]) == AfterPut(c, r, e);
    PutMeans(c, r.state, e);
    var kept :| DurableQueued(c, r.state, e, PutIn(c, r.state, e), kept);
    assert (kept + [e])[..|kept|] == kept;
    EvictExhausts(c, r.state.items, [], Size(e));
  }

  /** One collapse can lose two events while the counter moves by one. */
  lemma {:induction false} CollapseLosesTwo(a: Event, b: Event)
    requires a.Durable? && b.Durable?
    ensures var r := After(Ceiling(1, 1000000), [Put(a), Put(b)]);
            r.state == State([Overflow(1)], 1, true) && r.overwritten == 1 && r.delivered == []
  {
    var c := Ceiling(1, 1000000);
    assert [Put(a), Put(b)][..1] == [Put(a)] && [Put(a)][..0] == [];
    var none: seq<Event> := [];
    EvictAgain(c, none, [], Size(a));
    assert none + [] == none && none + [a] == [a];
    EvictAgain(c, [a], [], Size(b));
    assert [a] + [] == [a] && [a][..0] + [Overflow(1)] == [Overflow(1)];
    assert After(c, [Put(a)]).state == State([a], 0, false);
    assert After(c, [Put(a)]) == AfterPut(c, START, a);
    assert AfterEviction(c, State([a], 0, false), Size(b)) == State([a], 0, false);
  }
}
