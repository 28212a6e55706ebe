/** The bounded event queue of runtime/subscriber.py, one per connected client. */
module Subscribers {
  import opened Decimals
  import opened Wrappers

  const RECOVERY_MARK := 1024
  const FLAT_SIZE := 256
  const OVERFLOW_CHARS := 72
  const RECOVERY_CHARS := 89

  /** Events of the two droppable classes are Streaming, all others Durable. The last two are the notices
      the queue makes itself. `size` is what `approx_size` gives. */
  datatype Event =
    | Streaming(id: nat, size: nat)
    | Durable(id: nat, size: nat)
    | Overflow(count: nat)
    | Recovery(count: nat)

  predicate FromClient(e: Event) {
    e.Streaming? || e.Durable?
  }

  /** A notice carries one message: its fixed characters and the count in decimal. */
  function NoticeSize(fixed: nat, count: nat): nat {
    FLAT_SIZE + fixed + |Digits(count)|
  }

  function Size(e: Event): nat {
    match e
    case Streaming(_, size) => size
    case Durable(_, size) => size
    case Overflow(n) => NoticeSize(OVERFLOW_CHARS, n)
    case Recovery(n) => NoticeSize(RECOVERY_CHARS, n)
  }

  /** A notice weighs its flat size and the text it carries. */
  lemma {:induction false} NoticesWeighTheirText(count: nat)
    ensures Size(Overflow(count))
         == 256 + |"event stream overflowed; " + Digits(count) + " events dropped, send RequestSnapshot to resync"|
    ensures Size(Recovery(count))
         == 256 + |"dropped " + Digits(count) + " streaming events while the client was behind; full message text was not affected"|
  {
  }

  function Bytes(items: seq<Event>): nat {
    if items == [] then 0 else Bytes(items[..|items| - 1]) + Size(items[|items| - 1])
  }

  datatype Ceiling = Ceiling(capacity: int, maxBytes: int)

  predicate Over(c: Ceiling, items: seq<Event>, extra: nat) {
    |items| >= c.capacity || Bytes(items) + extra > c.maxBytes
  }

  /****** The transitions ******/

  datatype State = State(items: seq<Event>, dropped: nat, overflowed: bool)

  /** Removes droppable events of `front`, newest first, until `needed` more bytes fit. */
  function Evict(c: Ceiling, front: seq<Event>, back: seq<Event>, needed: nat): seq<Event>
    decreases |front|
  {
    if front == [] || !Over(c, front + back, needed) then front + back
    else
      var last, rest := front[|front| - 1], front[..|front| - 1];
      if last.Streaming? then Evict(c, rest, back, needed) else Evict(c, rest, [last] + back, needed)
  }

  function Collapse(s: State): State {
    var notice := Overflow(s.dropped + 1);
    State(if s.items == [] then [notice] else s.items[..|s.items| - 1] + [notice], s.dropped + 1, true)
  }

  function AfterEviction(c: Ceiling, s: State, needed: nat): (r: State)
  {
    EvictShrinks(c, s.items, [], needed);
    var kept := Evict(c, s.items, [], needed);
    State(kept, s.dropped + (|s.items| - |kept|), s.overflowed)
  }

  function PutIn(c: Ceiling, s: State, e: Event): State {
    if e.Streaming? then
      if Over(c, s.items, e.size) then s.(dropped := s.dropped + 1) else s.(items := s.items + [e])
    else
      var room := AfterEviction(c, s, Size(e));
      if |room.items| >= c.capacity then Collapse(room) else room.(items := room.items + [e])
  }

  function NoteRecovery(s: State): State {
    if s.dropped == 0 || |s.items| > RECOVERY_MARK then s
    else State(s.items + [Recovery(s.dropped)], 0, false)
  }

  function TakeFrom(s: State): State
    requires s.items != []
  {
    NoteRecovery(s.(items := s.items[1..]))
  }

  lemma {:induction false} EvictShrinks(c: Ceiling, front: seq<Event>, back: seq<Event>, needed: nat)
    ensures |Evict(c, front, back, needed)| <= |front| + |back|
    decreases |front|
  {
    if front != [] && Over(c, front + back, needed) {
      var last, rest := front[|front| - 1], front[..|front| - 1];
      if last.Streaming? { EvictShrinks(c, rest, back, needed); } else { EvictShrinks(c, rest, [last] + back, needed); }
    }
  }

  /****** The class ******/

  class Subscriber {
    const ceiling: Ceiling
    var items: seq<Event>
    var bytes: int
    var overflowed: bool
    var dropped: nat

    /** The counter is the exact sum of the queued sizes. */
    ghost predicate Valid()
      reads this
    {
      bytes == Bytes(items)
    }

    ghost function Now(): State
      reads this
    {
      State(items, dropped, overflowed)
    }

    constructor (capacity: int, maxBytes: int)
      ensures Valid() && ceiling == Ceiling(capacity, maxBytes)
      ensures Now() == State([], 0, false)
    {
      ceiling := Ceiling(capacity, maxBytes);
      items, bytes, overflowed, dropped := [], 0, false, 0;
    }

    predicate OverCeiling(extra: nat)
      requires Valid()
      reads this
      ensures OverCeiling(extra) <==> Over(ceiling, items, extra)
    {
      |items| >= ceiling.capacity || bytes + extra > ceiling.maxBytes
    }

    method Put(e: Event)
      requires Valid() && FromClient(e)
      modifies this
      ensures Valid() && Now() == PutIn(ceiling, old(Now()), e)
      ensures PutKeepsCeiling(ceiling, old(Now()), e, Now())
    {
      PutMeans(ceiling, Now(), e);
      var size := Size(e);
      var droppable := e.Streaming?;
      if OverCeiling(0) && droppable {
        dropped := dropped + 1;
        return;
      }
      EvictIdle(ceiling, items, size);
      if OverCeiling(size) && !droppable {
        var _ := EvictDroppable(size);
      }
      if OverCeiling(size) && droppable {
        dropped := dropped + 1;
        return;
      }
      if |items| >= ceiling.capacity && !droppable {
        SecondEvictionIsDead(ceiling, old(Now()), size);
        var room := EvictDroppable(size);
        if !room {
          CollapseOverflow();
          return;
        }
      }
      Append(e, size);
    }

    method Append(e: Event, size: nat)
      requires Valid() && size == Size(e)
      modifies this
      ensures Valid() && Now() == old(Now()).(items := old(items) + [e])
    {
      assert (items + [e])[..|items|] == items;
      items := items + [e];
      bytes := bytes + size;
    }

    method EvictDroppable(needed: nat) returns (room: bool)
      requires Valid()
      modifies this
      ensures Valid() && Now() == AfterEviction(ceiling, old(Now()), needed)
      ensures room <==> old(items) != [] && !Over(ceiling, items, needed)
    {
      room := false;
      var index := |items|;
      ghost var start := items;
      assert items[..index] == items && items[index..] == [];
      while index > 0
        invariant 0 <= index <= |items| <= |start| && Valid()
        invariant Evict(ceiling, items[..index], items[index..], needed) == Evict(ceiling, start, [], needed)
        invariant dropped == old(dropped) + (|start| - |items|) && overflowed == old(overflowed)
        invariant if room then start != [] else items == start && (index < |items| ==> Over(ceiling, items, needed))
        decreases index
      {
        EvictAt(ceiling, items, index, needed);
        if !OverCeiling(needed) { return true; }
        index := index - 1;
        var item := items[index];
        if !item.Streaming? { continue; }
        RemovedAt(items, index);
        items := items[..index] + items[index + 1..];
        bytes := if bytes - Size(item) > 0 then bytes - Size(item) else 0;
        dropped := dropped + 1;
        room := true;
      }
      assert items[..0] == [] && items[0..] == items && [] + items == items;
      room := room && !OverCeiling(needed);
    }

    method CollapseOverflow()
      requires Valid()
      modifies this
      ensures Valid() && Now() == Collapse(old(Now()))
    {
      dropped := dropped + 1;
      var notice := Overflow(dropped);
      if items != [] {
        var last := items[|items| - 1];
        var front := items[..|items| - 1];
        bytes := if bytes - Size(last) > 0 then bytes - Size(last) else 0;
        items := front + [notice];
        bytes := bytes + Size(notice);
        assert (front + [notice])[..|front|] == front;
      } else {
        items := items + [notice];
        bytes := bytes + Size(notice);
        assert [notice][..0] == [];
      }
      overflowed := true;
    }

    method GetNowait() returns (r: Option<Event>)
      requires Valid()
      modifies this
      ensures Valid()
      ensures old(items) == [] ==> r == None && Now() == old(Now())
      ensures old(items) != [] ==> r == Some(old(items)[0]) && Now() == TakeFrom(old(Now()))
      ensures old(items) != [] ==>
                Now() == if old(dropped) > 0 && |old(items)| <= 1025 then State(old(items)[1..] + [Recovery(old(dropped))], 0, false)
                         else State(old(items)[1..], old(dropped), old(overflowed))
    {
      if items == [] { return None; }
      var e := items[0];
      BytesTail(items);
      items := items[1..];
      bytes := if bytes - Size(e) > 0 then bytes - Size(e) else 0;
      MaybeNoteRecovery();
      return Some(e);
    }

    method MaybeNoteRecovery()
      requires Valid()
      modifies this
      ensures Valid() && Now() == NoteRecovery(old(Now()))
    {
      if dropped <= 0 { return; }
      if |items| > RECOVERY_MARK { return; }
      var n := dropped;
      dropped, overflowed := 0, false;
      var warning := Recovery(n);
      assert (items + [warning])[..|items|] == items;
      items := items + [warning];
      bytes := bytes + Size(warning);
    }
  }

  lemma {:induction false} BytesRemove(a: seq<Event>, e: Event, b: seq<Event>)
    ensures Bytes(a + [e] + b) == Bytes(a + b) + Size(e)
  {
    if b == [] {
      assert a + [e] + b == a + [e] && a + b == a;
      assert (a + [e])[..|a|] == a;
    } else {
      var last, rest := b[|b| - 1], b[..|b| - 1];
      BytesRemove(a, e, rest);
      assert (a + [e] + b)[..|a| + |b|] == a + [e] + rest;
      assert (a + b)[..|a| + |rest|] == a + rest;
    }
  }

  lemma {:induction false} BytesTail(items: seq<Event>)
    requires items != []
    ensures Bytes(items) == Size(items[0]) + Bytes(items[1..])
  {
    BytesRemove([], items[0], items[1..]);
    assert items == [] + [items[0]] + items[1..] && [] + items[1..] == items[1..];
  }

  /** One step of the eviction at `index`. */
  lemma {:induction false} EvictAt(c: Ceiling, items: seq<Event>, index: nat, needed: nat)
    requires 0 < index <= |items|
    ensures Evict(c, items[..index], items[index..], needed) ==
            if !Over(c, items, needed) then items
            else if items[index - 1].Streaming? then Evict(c, items[..index - 1], items[index..], needed)
            else Evict(c, items[..index - 1], items[index - 1..], needed)
  {
    var front, back := items[..index], items[index..];
    assert front + back == items;
    assert front[..index - 1] == items[..index - 1] && [items[index - 1]] + back == items[index - 1..];
  }

  lemma {:induction false} RemovedAt(items: seq<Event>, k: nat)
    requires k < |items|
    ensures var out := items[..k] + items[k + 1..];
            out[..k] == items[..k] && out[k..] == items[k + 1..] && Bytes(items) == Bytes(out) + Size(items[k])
  {
    BytesRemove(items[..k], items[k], items[k + 1..]);
    assert items == items[..k] + [items[k]] + items[k + 1..];
  }

  lemma {:induction false} EvictIdle(c: Ceiling, items: seq<Event>, needed: nat)
    ensures !Over(c, items, needed) ==> Evict(c, items, [], needed) == items
  {
    assert items + [] == items;
  }

  /****** What eviction does ******/

  ghost predicate NoStreaming(items: seq<Event>) {
    forall k | 0 <= k < |items| :: !items[k].Streaming?
  }

  /** Eviction stops only when there is room or nothing droppable is left. */
  lemma {:induction false} EvictExhausts(c: Ceiling, front: seq<Event>, back: seq<Event>, needed: nat)
    requires NoStreaming(back)
    ensures var kept := Evict(c, front, back, needed);
            !Over(c, kept, needed) || NoStreaming(kept)
    decreases |front|
  {
    if front == [] {
      assert front + back == back;
    } else if Over(c, front + back, needed) {
      var last, rest := front[|front| - 1], front[..|front| - 1];
      if last.Streaming? { EvictExhausts(c, rest, back, needed); } else { EvictExhausts(c, rest, [last] + back, needed); }
    }
  }

  /****** What the ceiling promises ******/

  predicate Room(c: Ceiling, items: seq<Event>, needed: nat) {
    |items| < c.capacity && Bytes(items) + needed <= c.maxBytes
  }

  /** The events that may not be dropped. */
  function Fixed(items: seq<Event>): seq<Event> {
    if items == [] then []
    else Fixed(items[..|items| - 1]) + (if items[|items| - 1].Streaming? then [] else [items[|items| - 1]])
  }

  /** `kept` is `items` without its newest streaming events, down to position `i`: there was no room while
      the event at `i` was still there, and now there is, or nothing is left to drop. */
  ghost predicate EvictedDownTo(c: Ceiling, items: seq<Event>, needed: nat, kept: seq<Event>, i: nat) {
    && i < |items| && items[i].Streaming?
    && kept == items[..i] + Fixed(items[i + 1..])
    && !Room(c, items[..i + 1] + Fixed(items[i + 1..]), needed)
    && (Room(c, kept, needed) || NoStreaming(kept))
  }

  /** Nothing was evicted, because there is room or nothing to drop; or no more than was needed. */
  ghost predicate MadeRoom(c: Ceiling, items: seq<Event>, needed: nat, kept: seq<Event>) {
    || (kept == items && (Room(c, items, needed) || NoStreaming(items)))
    || exists i: nat :: EvictedDownTo(c, items, needed, kept, i)
  }

  /** What a put owes: a streaming event is queued if it fits, and otherwise counted as dropped; a durable
      one is queued behind what was kept, unless events that may not be dropped fill the queue: then it
      takes the newest of them along into a notice. */
  ghost predicate PutKeepsCeiling(c: Ceiling, s: State, e: Event, t: State) {
    if e.Streaming? then
      if Room(c, s.items, Size(e)) then t == State(s.items + [e], s.dropped, s.overflowed)
      else t == State(s.items, s.dropped + 1, s.overflowed)
    else
      exists kept :: DurableQueued(c, s, e, t, kept)
  }

  ghost predicate DurableQueued(c: Ceiling, s: State, e: Event, t: State, kept: seq<Event>) {
    && |kept| <= |s.items| && MadeRoom(c, s.items, Size(e), kept)
    && var lost := s.dropped + |s.items| - |kept|;
       if |kept| < c.capacity then t == State(kept + [e], lost, s.overflowed)
       else
         && NoStreaming(kept) && t.dropped == lost + 1 && t.overflowed
         && if kept == [] then t.items == [Overflow(lost + 1)] else t.items == kept[..|kept| - 1] + [Overflow(lost + 1)]
  }

  lemma {:induction false} FixedLast(items: seq<Event>, last: Event)
    ensures Fixed(items + [last]) == Fixed(items) + (if last.Streaming? then [] else [last])
  {
    assert (items + [last])[..|items|] == items;
  }

  lemma {:induction false} EvictMeans(c: Ceiling, front: seq<Event>, back: seq<Event>, needed: nat) returns (i: nat)
    requires NoStreaming(back)
    ensures var kept := Evict(c, front, back, needed);
            if i >= |front| then kept == front + back && (Room(c, kept, needed) || NoStreaming(kept))
            else
              && front[i].Streaming?
              && kept == front[..i] + Fixed(front[i + 1..]) + back
              && !Room(c, front[..i + 1] + Fixed(front[i + 1..]) + back, needed)
              && (Room(c, kept, needed) || NoStreaming(kept))
    decreases |front|
  {
    i := |front|;
    if front != [] && Over(c, front + back, needed) {
      var last, rest := front[|front| - 1], front[..|front| - 1];
      assert front == rest + [last];
      i := EvictMeans(c, rest, if last.Streaming? then back else [last] + back, needed);
      if i < |rest| {
        EvictedBelow(rest, last, back, i);
      } else if last.Streaming? {
        i := |rest|;
        EvictedHere(rest, last, back);
      } else {
        i := |front|;
        assert rest + ([last] + back) == front + back;
      }
    }
  }

  lemma {:induction false} EvictedHere(rest: seq<Event>, last: Event, back: seq<Event>)
    ensures var front := rest + [last];
            front[..|rest|] + Fixed(front[|rest| + 1..]) + back == rest + back
            && front[..|rest| + 1] + Fixed(front[|rest| + 1..]) + back == front + back
  {
    var front := rest + [last];
    assert front[|rest| + 1..] == [] && front[..|rest|] == rest && front[..|rest| + 1] == front;
    assert rest + [] == rest && front + [] == front;
  }

  /** How the description of the shorter front reads on the longer one. */
  lemma {:induction false} EvictedBelow(rest: seq<Event>, last: Event, back: seq<Event>, i: nat)
    requires i < |rest|
    ensures var front, fixed := rest + [last], Fixed(rest[i + 1..]);
            var tail := if last.Streaming? then back else [last] + back;
            && front[i] == rest[i]
            && front[..i] + Fixed(front[i + 1..]) + back == rest[..i] + fixed + tail
            && front[..i + 1] + Fixed(front[i + 1..]) + back == rest[..i + 1] + fixed + tail
  {
    var front, fixed := rest + [last], Fixed(rest[i + 1..]);
    FixedLast(rest[i + 1..], last);
    assert front[i + 1..] == rest[i + 1..] + [last];
    assert front[..i] == rest[..i] && front[..i + 1] == rest[..i + 1];
    if last.Streaming? {
      assert fixed + [] == fixed;
    } else {
      Regroup(rest[..i], fixed, last, back);
      Regroup(rest[..i + 1], fixed, last, back);
    }
  }

  lemma {:induction false} Regroup(a: seq<Event>, b: seq<Event>, e: Event, d: seq<Event>)
    ensures a + (b + [e]) + d == a + b + ([e] + d)
  {
  }

  lemma {:induction false} EvictionMakesRoom(c: Ceiling, items: seq<Event>, needed: nat)
    ensures MadeRoom(c, items, needed, Evict(c, items, [], needed))
  {
    var kept := Evict(c, items, [], needed);
    var i := EvictMeans(c, items, [], needed);
    if i >= |items| {
      assert items + [] == items;
    } else {
      var fixed := Fixed(items[i + 1..]);
      assert items[..i] + fixed + [] == items[..i] + fixed && items[..i + 1] + fixed + [] == items[..i + 1] + fixed;
      assert EvictedDownTo(c, items, needed, kept, i);
    }
  }

  lemma {:induction false} PutMeans(c: Ceiling, s: State, e: Event)
    ensures PutKeepsCeiling(c, s, e, PutIn(c, s, e))
  {
    if !e.Streaming? {
      var kept := Evict(c, s.items, [], Size(e));
      EvictionMakesRoom(c, s.items, Size(e));
      EvictShrinks(c, s.items, [], Size(e));
      if |kept| >= c.capacity { FullMeansFixed(c, s, Size(e)); }
      assert DurableQueued(c, s, e, PutIn(c, s, e), kept);
    }
  }

  /** A second eviction finds nothing to do, so the one inside the capacity branch of `put` is dead. */
  lemma {:induction false} EvictAgain(c: Ceiling, front: seq<Event>, back: seq<Event>, needed: nat)
    requires !Over(c, front + back, needed) || NoStreaming(front)
    ensures Evict(c, front, back, needed) == front + back
    decreases |front|
  {
    if front != [] && Over(c, front + back, needed) {
      var last, rest := front[|front| - 1], front[..|front| - 1];
      assert rest + ([last] + back) == front + back;
      EvictAgain(c, rest, [last] + back, needed);
    }
  }

  lemma {:induction false} FullMeansFixed(c: Ceiling, s: State, needed: nat)
    requires |AfterEviction(c, s, needed).items| >= c.capacity
    ensures NoStreaming(AfterEviction(c, s, needed).items)
  {
    EvictExhausts(c, s.items, [], needed);
  }

  lemma {:induction false} SecondEvictionIsDead(c: Ceiling, s: State, needed: nat)
    requires |AfterEviction(c, s, needed).items| >= c.capacity
    ensures AfterEviction(c, AfterEviction(c, s, needed), needed) == AfterEviction(c, s, needed)
  {
    var room := AfterEviction(c, s, needed);
    FullMeansFixed(c, s, needed);
    EvictAgain(c, room.items, [], needed);
    assert room.items + [] == room.items;
  }
}
