/**
 Chat histories and the pairing rule of agents/compactor.py: an assistant message that carries tool
 calls is followed at once by exactly one tool message for each call.

 `Paired` is that rule as a grammar; `ValidateHistory` is the one-pass recogniser of the source.
 */
module History {
  import opened Decimals
  import opened Wrappers

  datatype Role = System | User | Assistant | Tool | OtherRole(name: string)

  /** One block of a list-valued content: an image, or anything that renders to text. */
  datatype Part = Image | Block(text: string)

  datatype Content = Absent | Text(text: string) | Parts(parts: seq<Part>)

  /** `calls` holds the ids of `tool_calls`, with "" for a call that has none. */
  datatype Message = Message(role: Role, calls: seq<string>, callId: string, content: Content)

  predicate Opens(m: Message) {
    m.role.Assistant? && m.calls != []
  }

  predicate Plain(m: Message) {
    !Opens(m) && !m.role.Tool?
  }

  /****** The grammar ******/

  ghost predicate Distinct(ids: seq<string>) {
    forall i, j | 0 <= i < j < |ids| :: ids[i] != ids[j]
  }

  function CallIds(results: seq<Message>): (ids: seq<string>)
    ensures |ids| == |results|
    ensures forall k | 0 <= k < |ids| :: ids[k] == results[k].callId
  {
    seq(|results|, k requires 0 <= k < |results| => results[k].callId)
  }

  /** An assistant message with usable call ids, then one result per call, in any order. */
  ghost predicate ToolGroup(g: seq<Message>) {
    && g != [] && Opens(g[0])
    && |g| == 1 + |g[0].calls|
    && "" !in g[0].calls && Distinct(g[0].calls)
    && (forall k | 1 <= k < |g| :: g[k].role.Tool?)
    && multiset(CallIds(g[1..])) == multiset(g[0].calls)
  }

  function UnitLength(first: Message): (n: nat)
    ensures n >= 1
  {
    if Opens(first) then 1 + |first.calls| else 1
  }

  ghost predicate Unit(g: seq<Message>) {
    (|g| == 1 && Plain(g[0])) || ToolGroup(g)
  }

  /** A history is a sequence of plain messages and complete tool groups. */
  ghost predicate Paired(h: seq<Message>) {
    h == [] ||
    var n := UnitLength(h[0]);
    n <= |h| && Unit(h[..n]) && Paired(h[n..])
  }

  /****** The recogniser ******/

  datatype HistoryError =
    | UnclosedBefore(index: nat)
    | MissingCallId(index: nat, call: nat)
    | DuplicateCallId(callId: string, index: nat)
    | OrphanTool(index: nat)
    | UnexpectedCallId(callId: string, index: nat)
    | Interrupted(index: nat)
    | UnclosedAtEnd

  /** The key stored for a call: its id, or a placeholder naming its position. */
  function PendingKey(id: string, index: nat, call: nat): string {
    if id == "" then "missing:" + Digits(index) + ":" + Digits(call) else id
  }

  function KeysFrom(calls: seq<string>, index: nat, call: nat, pending: set<string>): set<string>
    requires call <= |calls|
    decreases |calls| - call
  {
    if call == |calls| then pending
    else KeysFrom(calls, index, call + 1, pending + {PendingKey(calls[call], index, call)})
  }

  function CallErrors(calls: seq<string>, index: nat, call: nat, pending: set<string>): seq<HistoryError>
    requires call <= |calls|
    decreases |calls| - call
  {
    if call == |calls| then []
    else
      var id := calls[call];
      (if id == "" then [MissingCallId(index, call)]
       else if id in pending then [DuplicateCallId(id, index)] else [])
      + CallErrors(calls, index, call + 1, pending + {PendingKey(id, index, call)})
  }

  /** What one message adds to the errors, and the calls open after it; the empty set stands for no
      open group. */
  function Step(m: Message, index: nat, pending: set<string>): (seq<HistoryError>, set<string>) {
    if Opens(m) then
      ((if pending != {} then [UnclosedBefore(index)] else []) + CallErrors(m.calls, index, 0, {}),
       KeysFrom(m.calls, index, 0, {}))
    else if m.role.Tool? then
      if pending == {} then ([OrphanTool(index)], {})
      else if m.callId !in pending then ([UnexpectedCallId(m.callId, index)], pending)
      else ([], pending - {m.callId})
    else (if pending != {} then [Interrupted(index)] else [], {})
  }

  /** Every error reported for `h`, whose first message has position `index`, while the calls of
      `pending` still wait for a result. */
  function Errors(h: seq<Message>, index: nat, pending: set<string>): seq<HistoryError> {
    if h == [] then
      if pending != {} then [UnclosedAtEnd] else []
    else
      var (found, next) := Step(h[0], index, pending);
      found + Errors(h[1..], index + 1, next)
  }

  /** The inner loop of the validator: opens a group with one key per call. */
  method OpenGroup(calls: seq<string>, index: nat) returns (pending: set<string>, errors: seq<HistoryError>)
    ensures errors == CallErrors(calls, index, 0, {})
    ensures pending == KeysFrom(calls, index, 0, {})
  {
    pending, errors := {}, [];
    for call := 0 to |calls|
      invariant errors + CallErrors(calls, index, call, pending) == CallErrors(calls, index, 0, {})
      invariant KeysFrom(calls, index, call, pending) == KeysFrom(calls, index, 0, {})
    {
      var id := calls[call];
      var found := if id == "" then [MissingCallId(index, call)]
                   else if id in pending then [DuplicateCallId(id, index)] else [];
      var next := pending + {PendingKey(id, index, call)};
      assert errors + (found + CallErrors(calls, index, call + 1, next)) == errors + found + CallErrors(calls, index, call + 1, next);
      errors, pending := errors + found, next;
    }
  }

  /** The source's validator; no error is reported exactly for the histories of the grammar. */
  method ValidateHistory(messages: seq<Message>) returns (errors: seq<HistoryError>)
    ensures errors == Errors(messages, 0, {})
    ensures errors == [] <==> Paired(messages)
  {
    errors := [];
    var pending: set<string> := {};
    for index := 0 to |messages|
      invariant errors + Errors(messages[index..], index, pending) == Errors(messages, 0, {})
    {
      var message := messages[index];
      var found: seq<HistoryError> := [];
      var open := pending;
      if Opens(message) {
        if open != {} { found := [UnclosedBefore(index)]; }
        var missing;
        pending, missing := OpenGroup(message.calls, index);
        found := found + missing;
      } else if message.role.Tool? {
        if open == {} {
          found := [OrphanTool(index)];
        } else if message.callId !in open {
          found := [UnexpectedCallId(message.callId, index)];
        } else {
          pending := open - {message.callId};
        }
      } else if open != {} {
        found := [Interrupted(index)];
        pending := {};
      }
      assert (found, pending) == Step(message, index, open);
      ErrorsNext(messages, index, open, errors);
      errors := errors + found;
    }
    if pending != {} { errors := errors + [UnclosedAtEnd]; }
    NoErrorsIffPaired(messages);
  }

  lemma {:induction false} ErrorsNext(h: seq<Message>, index: nat, pending: set<string>, errors: seq<HistoryError>)
    requires index < |h|
    ensures var (found, next) := Step(h[index], index, pending);
            errors + Errors(h[index..], index, pending) == errors + found + Errors(h[index + 1..], index + 1, next)
  {
    assert h[index..][1..] == h[index + 1..];
  }

  /****** The recogniser accepts exactly the grammar ******/

  /** What the recogniser still needs when the calls of `pending` are open. */
  ghost predicate Closes(h: seq<Message>, pending: set<string>) {
    && |pending| <= |h|
    && (forall k | 0 <= k < |pending| :: h[k].role.Tool?)
    && multiset(CallIds(h[..|pending|])) == multiset(pending)
    && Paired(h[|pending|..])
  }

  lemma {:induction false} DistinctTail(id: string, ids: seq<string>)
    requires Distinct([id] + ids)
    ensures Distinct(ids) && id !in ids
  {
    var all := [id] + ids;
    assert all[0] == id;
    forall i | 0 <= i < |ids| ensures ids[i] != id { assert ids[i] == all[i + 1]; }
    forall i, j | 0 <= i < j < |ids| ensures ids[i] != ids[j] {
      assert ids[i] == all[i + 1] && ids[j] == all[j + 1];
    }
  }

  lemma {:induction false} CallErrorsMeaning(calls: seq<string>, index: nat, call: nat, pending: set<string>)
    requires call <= |calls|
    requires pending == set k | 0 <= k < call :: calls[k]
    ensures CallErrors(calls, index, call, pending) == [] <==>
            "" !in calls[call..] && Distinct(calls[call..]) && (forall k | call <= k < |calls| :: calls[k] !in pending)
    ensures CallErrors(calls, index, call, pending) == [] ==>
            KeysFrom(calls, index, call, pending) == set k | 0 <= k < |calls| :: calls[k]
    decreases |calls| - call
  {
    if call < |calls| {
      var rest := calls[call..];
      assert rest == [calls[call]] + calls[call + 1..];
      assert calls[call..][0] == calls[call];
      if calls[call] != "" {
        var next := pending + {calls[call]};
        assert next == set k | 0 <= k < call + 1 :: calls[k];
        CallErrorsMeaning(calls, index, call + 1, next);
        assert forall k | call + 1 <= k < |calls| :: calls[k] == rest[k - call];
        if Distinct(calls[call + 1..]) && (forall k | call + 1 <= k < |calls| :: calls[k] !in next) {
          assert Distinct(rest);
        }
        if Distinct(rest) {
          DistinctTail(calls[call], calls[call + 1..]);
        }
      }
    }
  }

  lemma {:induction false} DistinctMultiset(ids: seq<string>)
    requires Distinct(ids)
    ensures multiset(ids) == multiset(set k | 0 <= k < |ids| :: ids[k])
    ensures |set k | 0 <= k < |ids| :: ids[k]| == |ids|
  {
    var all := set k | 0 <= k < |ids| :: ids[k];
    if ids != [] {
      var n := |ids| - 1;
      DistinctMultiset(ids[..n]);
      var front := set k | 0 <= k < n :: ids[..n][k];
      assert ids == ids[..n] + [ids[n]];
      assert all == front + {ids[n]};
      assert ids[n] !in front;
    }
  }

  lemma {:induction false} GroupCloses(h: seq<Message>)
    requires h != [] && Opens(h[0]) && "" !in h[0].calls && Distinct(h[0].calls)
    ensures var keys := set k | 0 <= k < |h[0].calls| :: h[0].calls[k];
            Closes(h[1..], keys) <==> Paired(h)
  {
    var calls := h[0].calls;
    DistinctMultiset(calls);
    if |calls| + 1 <= |h| {
      var g := h[..|calls| + 1];
      assert g[1..] == h[1..][..|calls|];
      assert h[1..][|calls|..] == h[|calls| + 1..];
      assert forall k | 0 <= k < |calls| :: h[1..][k] == g[k + 1];
    }
  }

  /** An opener closes nothing but starts a group; a plain message closes nothing at all. */
  lemma {:induction false} OpenerMeaning(h: seq<Message>, pending: set<string>)
    requires h != [] && Opens(h[0])
    ensures Closes(h, pending) <==> pending == {} && Paired(h)
  {
    if pending == {} {
      assert h[0..] == h && h[..0] == [];
    } else if |pending| <= |h| {
      assert !h[0].role.Tool?;
    }
  }

  lemma {:induction false} PlainMeaning(h: seq<Message>, pending: set<string>)
    requires h != [] && Plain(h[0])
    ensures Closes(h, pending) <==> pending == {} && Closes(h[1..], {})
  {
    assert h[1..][0..] == h[1..] && h[1..][..0] == [];
    if pending == {} {
      assert h[0..] == h && h[..0] == [];
      assert h[..1] == [h[0]];
    } else if |pending| <= |h| {
      assert !h[0].role.Tool?;
    }
  }

  lemma {:induction false} StrayMeaning(h: seq<Message>, pending: set<string>)
    requires h != [] && h[0].role.Tool? && h[0].callId !in pending
    ensures !Closes(h, pending)
  {
    if pending == {} {
      assert h[0..] == h;
    } else if |pending| <= |h| {
      assert CallIds(h[..|pending|])[0] == h[0].callId;
      assert h[0].callId in multiset(CallIds(h[..|pending|]));
    }
  }

  lemma {:induction false} ErrorsMeaning(h: seq<Message>, index: nat, pending: set<string>)
    ensures Errors(h, index, pending) == [] <==> Closes(h, pending)
  {
    if h != [] {
      var m, rest := h[0], h[1..];
      var (found, next) := Step(m, index, pending);
      if Opens(m) {
        OpenerMeaning(h, pending);
        CallErrorsMeaning(m.calls, index, 0, {});
        assert m.calls[0..] == m.calls;
        if CallErrors(m.calls, index, 0, {}) == [] {
          ErrorsMeaning(rest, index + 1, next);
          GroupCloses(h);
        } else {
          BadCallsNotPaired(h);
        }
      } else if !m.role.Tool? {
        PlainMeaning(h, pending);
        ErrorsMeaning(rest, index + 1, {});
      } else if m.callId in pending {
        ErrorsMeaning(rest, index + 1, next);
        ResultCloses(h, pending);
      } else {
        StrayMeaning(h, pending);
      }
    } else {
      assert h[..0] == [];
    }
  }

  lemma {:induction false} BadCallsNotPaired(h: seq<Message>)
    requires h != [] && Opens(h[0]) && ("" in h[0].calls || !Distinct(h[0].calls))
    ensures !Paired(h)
  {
    var n := UnitLength(h[0]);
    if n <= |h| { assert h[..n][0] == h[0]; }
  }

  lemma {:induction false} SameExtra(a: multiset<string>, b: multiset<string>, id: string)
    ensures multiset{id} + a == multiset{id} + b <==> a == b
  {
    assert (multiset{id} + a) - multiset{id} == a;
    assert (multiset{id} + b) - multiset{id} == b;
  }

  lemma {:induction false} ResultCloses(h: seq<Message>, pending: set<string>)
    requires h != [] && h[0].role.Tool? && h[0].callId in pending
    ensures Closes(h, pending) <==> Closes(h[1..], pending - {h[0].callId})
  {
    var rest, left, id := h[1..], pending - {h[0].callId}, h[0].callId;
    assert |pending| == |left| + 1;
    assert multiset(pending) == multiset{id} + multiset(left);
    if |pending| <= |h| {
      var answered := CallIds(rest[..|left|]);
      assert CallIds(h[..|pending|]) == [id] + answered;
      assert multiset([id] + answered) == multiset{id} + multiset(answered);
      SameExtra(multiset(answered), multiset(left), id);
      assert h[|pending|..] == rest[|left|..];
      assert (forall k | 0 <= k < |pending| :: h[k].role.Tool?) <==> (forall k | 0 <= k < |left| :: rest[k].role.Tool?) by {
        if forall k | 0 <= k < |left| :: rest[k].role.Tool? {
          forall k | 0 <= k < |pending| ensures h[k].role.Tool? { if k > 0 { assert h[k] == rest[k - 1]; } }
        }
      }
    }
  }

  lemma {:induction false} NoErrorsIffPaired(h: seq<Message>)
    ensures Errors(h, 0, {}) == [] <==> Paired(h)
  {
    ErrorsMeaning(h, 0, {});
    assert h[0..] == h;
  }

  /****** What each error says ******/

  /** The calls without a result after `h`. */
  function OpenAfter(h: seq<Message>): set<string> {
    if h == [] then {} else Step(h[|h| - 1], |h| - 1, OpenAfter(h[..|h| - 1])).1
  }

  function Found(h: seq<Message>): seq<HistoryError> {
    if h == [] then [] else Found(h[..|h| - 1]) + Step(h[|h| - 1], |h| - 1, OpenAfter(h[..|h| - 1])).0
  }

  lemma {:induction false} AssocErrors(a: seq<HistoryError>, b: seq<HistoryError>, c: seq<HistoryError>)
    ensures a + (b + c) == a + b + c
  {
  }

  lemma {:induction false} ErrorsFrom(h: seq<Message>, k: nat)
    requires k <= |h|
    ensures Found(h[..k]) + Errors(h[k..], k, OpenAfter(h[..k])) == Found(h) + (if OpenAfter(h) != {} then [UnclosedAtEnd] else [])
    decreases |h| - k
  {
    if k == |h| {
      assert h[..k] == h;
    } else {
      ErrorsFrom(h, k + 1);
      assert h[..k + 1][..k] == h[..k] && h[k..][1..] == h[k + 1..];
      var (found, next) := Step(h[k], k, OpenAfter(h[..k]));
      assert Found(h[..k + 1]) == Found(h[..k]) + found && OpenAfter(h[..k + 1]) == next;
      assert Errors(h[k..], k, OpenAfter(h[..k])) == found + Errors(h[k + 1..], k + 1, next);
      AssocErrors(Found(h[..k]), found, Errors(h[k + 1..], k + 1, next));
    }
  }

  /** Only tool messages have followed the message at `j`. */
  ghost predicate OnlyTools(h: seq<Message>, j: nat) {
    forall k | j < k < |h| :: h[k].role.Tool?
  }

  /** The ids answered since the message at `j`. */
  function Answered(h: seq<Message>, j: nat): set<string> {
    if |h| <= j + 1 then {} else Answered(h[..|h| - 1], j) + {h[|h| - 1].callId}
  }

  lemma {:induction false} OnlyToolsFront(h: seq<Message>, j: nat)
    requires j + 1 < |h|
    ensures OnlyTools(h, j) <==> h[|h| - 1].role.Tool? && OnlyTools(h[..|h| - 1], j)
  {
    var front := h[..|h| - 1];
    if OnlyTools(front, j) && h[|h| - 1].role.Tool? {
      forall k | j < k < |h| ensures h[k].role.Tool? { assert k < |front| ==> front[k] == h[k]; }
    }
  }

  /** While only tool messages follow an opener, those of its calls are open that none of them has answered. */
  lemma {:induction false} OpenSince(h: seq<Message>, j: nat)
    requires j < |h| && Opens(h[j]) && OnlyTools(h, j)
    ensures OpenAfter(h) == KeysFrom(h[j].calls, j, 0, {}) - Answered(h, j)
  {
    if j + 1 < |h| {
      OnlyToolsFront(h, j);
      OpenSince(h[..|h| - 1], j);
    }
  }

  /** Otherwise nothing is open. */
  lemma {:induction false} NothingOpen(h: seq<Message>)
    requires forall j | 0 <= j < |h| && Opens(h[j]) :: !OnlyTools(h, j)
    ensures OpenAfter(h) == {}
  {
    if h != [] {
      var front, m := h[..|h| - 1], h[|h| - 1];
      assert OnlyTools(h, |h| - 1);
      if m.role.Tool? {
        forall j | 0 <= j < |front| && Opens(front[j]) ensures !OnlyTools(front, j) {
          assert Opens(h[j]);
          OnlyToolsFront(h, j);
        }
        NothingOpen(front);
      }
    }
  }

  lemma {:induction false} CallErrorsKinds(calls: seq<string>, index: nat, call: nat, pending: set<string>)
    requires call <= |calls|
    ensures forall e | e in CallErrors(calls, index, call, pending) :: (e.MissingCallId? || e.DuplicateCallId?) && e.index == index
    decreases |calls| - call
  {
    if call < |calls| { CallErrorsKinds(calls, index, call + 1, pending + {PendingKey(calls[call], index, call)}); }
  }

  /** The error a message causes by its place, if it causes one. */
  function Misplaced(m: Message, index: nat, pending: set<string>): Option<HistoryError> {
    if m.role.Tool? then
      if pending == {} then Some(OrphanTool(index))
      else if m.callId in pending then None
      else Some(UnexpectedCallId(m.callId, index))
    else if pending == {} then None
    else if Opens(m) then Some(UnclosedBefore(index))
    else Some(Interrupted(index))
  }

  /** The errors reported are those of misplaced messages, and those of single calls; and a group that is
      open at the end is one more. */
  lemma {:induction false} ErrorIff(h: seq<Message>, e: HistoryError)
    requires !e.MissingCallId? && !e.DuplicateCallId?
    ensures e in Errors(h, 0, {}) <==>
            || (e == UnclosedAtEnd && OpenAfter(h) != {})
            || exists i :: MisplacedAt(h, i, e)
  {
    ErrorsFrom(h, 0);
    assert h[0..] == h && h[..0] == [];
    assert [] + Errors(h, 0, {}) == Errors(h, 0, {});
    FoundIff(h, e);
  }

  lemma {:induction false} FoundHere(m: Message, index: nat, pending: set<string>, e: HistoryError)
    requires !e.MissingCallId? && !e.DuplicateCallId?
    ensures e in Step(m, index, pending).0 <==> Misplaced(m, index, pending) == Some(e)
  {
    CallErrorsKinds(m.calls, index, 0, {});
  }

  ghost predicate MisplacedAt(h: seq<Message>, i: nat, e: HistoryError) {
    i < |h| && Misplaced(h[i], i, OpenAfter(h[..i])) == Some(e)
  }

  lemma {:induction false} FoundIff(h: seq<Message>, e: HistoryError)
    requires !e.MissingCallId? && !e.DuplicateCallId?
    ensures e in Found(h) <==> exists i :: MisplacedAt(h, i, e)
  {
    if h != [] {
      var n := |h| - 1;
      var front := h[..n];
      FoundIff(front, e);
      FoundHere(h[n], n, OpenAfter(front), e);
      assert MisplacedAt(h, n, e) <==> e in Step(h[n], n, OpenAfter(front)).0;
      forall i: nat | i < n ensures MisplacedAt(h, i, e) <==> MisplacedAt(front, i, e) { assert front[..i] == h[..i]; }
    }
  }

  /** Calls without an id are told apart by their place. */
  lemma {:induction false} PlaceholdersDiffer(index: nat, call: nat, index': nat, call': nat)
    requires PendingKey("", index, call) == PendingKey("", index', call')
    ensures index == index' && call == call'
  {
    PlaceholderReads(index, call);
    PlaceholderReads(index', call');
    ValueOfDigits(call);
    ValueOfDigits(call');
  }

  lemma {:induction false} PlaceholderReads(index: nat, call: nat)
    ensures PendingKey("", index, call)[|"missing:"|..] == Digits(index) + (":" + Digits(call))
    ensures TakeNumber(Digits(index) + (":" + Digits(call))) == Some((index, ":" + Digits(call)))
    ensures (":" + Digits(call))[1..] == Digits(call)
  {
    TakeWritten(index, ":" + Digits(call));
  }

  /****** Concatenation and cut points ******/

  lemma {:induction false} PairedConcat(a: seq<Message>, b: seq<Message>)
    requires Paired(a) && Paired(b)
    ensures Paired(a + b)
  {
    if a == [] {
      assert a + b == b;
    } else {
      var n := UnitLength(a[0]);
      PairedConcat(a[n..], b);
      assert (a + b)[..n] == a[..n];
      assert (a + b)[n..] == a[n..] + b;
    }
  }

  lemma {:induction false} PairedUnit(g: seq<Message>, rest: seq<Message>)
    requires Unit(g) && Paired(rest)
    ensures Paired(g + rest)
  {
    assert (g + rest)[..|g|] == g && (g + rest)[|g|..] == rest;
  }

  lemma {:induction false} PairedPlain(m: Message, b: seq<Message>)
    requires Plain(m)
    ensures Paired([m] + b) <==> Paired(b)
    ensures Paired(b) ==> Paired(b + [m])
  {
    assert ([m] + b)[1..] == b && ([m] + b)[..1] == [m];
    assert [m][1..] == [] && [m][..1] == [m];
    assert Paired([m]);
    if Paired(b) { PairedConcat(b, [m]); }
  }

  /** A position between groups: both sides are histories of their own. */
  ghost predicate Between(h: seq<Message>, cut: int) {
    0 <= cut <= |h| && Paired(h[..cut]) && Paired(h[cut..])
  }

  /** The local test of the source: does cutting before message `cut` separate a group? */
  predicate SplitsGroup(h: seq<Message>, cut: int)
    requires 1 <= cut < |h|
  {
    Opens(h[cut - 1]) || (h[cut - 1].role.Tool? && h[cut].role.Tool?)
  }

  lemma {:induction false} LastIsNotOpener(h: seq<Message>)
    requires h != [] && Paired(h)
    ensures !Opens(h[|h| - 1])
  {
    var n := UnitLength(h[0]);
    if n < |h| {
      LastIsNotOpener(h[n..]);
    } else {
      assert h[..n] == h;
    }
  }

  lemma {:induction false} UnitInterior(h: seq<Message>, n: nat, cut: nat)
    requires n <= |h| && Unit(h[..n]) && 1 <= cut < n
    ensures SplitsGroup(h, cut)
  {
    var g := h[..n];
    assert g[cut].role.Tool? && g[cut] == h[cut];
    assert g[cut - 1] == h[cut - 1];
    assert cut == 1 || g[cut - 1].role.Tool?;
  }

  lemma {:induction false} UnsplitIsBetween(h: seq<Message>, cut: int)
    requires Paired(h) && 1 <= cut < |h| && !SplitsGroup(h, cut)
    ensures Between(h, cut)
  {
    var n := UnitLength(h[0]);
    var g, rest := h[..n], h[n..];
    if cut < n {
      UnitInterior(h, n, cut);
    } else if cut == n {
      PairedUnit(g, []);
      assert g + [] == g;
    } else {
      UnsplitIsBetween(rest, cut - n);
      assert rest[cut - n..] == h[cut..];
      PairedUnit(g, rest[..cut - n]);
      assert g + rest[..cut - n] == h[..cut];
    }
  }

  /** The local test is exact: looking at two neighbours decides the non-local question. */
  lemma {:induction false} CutIsBetween(h: seq<Message>, cut: int)
    requires Paired(h) && 1 <= cut < |h|
    ensures Between(h, cut) <==> !SplitsGroup(h, cut)
  {
    if Between(h, cut) {
      LastIsNotOpener(h[..cut]);
      assert h[..cut][cut - 1] == h[cut - 1];
      assert !h[cut..][0].role.Tool?;
    }
    if !SplitsGroup(h, cut) { UnsplitIsBetween(h, cut); }
  }

  lemma {:induction false} PairedRest(a: seq<Message>, b: seq<Message>)
    requires Paired(a) && Paired(a + b)
    ensures Paired(b)
  {
    if a == [] {
      assert a + b == b;
    } else {
      var n := UnitLength(a[0]);
      assert (a + b)[n..] == a[n..] + b;
      PairedRest(a[n..], b);
    }
  }

  lemma {:induction false} CutTransfers(h: seq<Message>, a: int, b: int)
    requires 0 <= a <= b <= |h| && Between(h, a) && Between(h, b)
    ensures Paired(h[a..b])
  {
    assert h[..b] == h[..a] + h[a..b];
    PairedRest(h[..a], h[a..b]);
  }

  /****** Pairing reads only the skeleton ******/

  ghost predicate SameSkeleton(a: seq<Message>, b: seq<Message>) {
    |a| == |b| &&
    forall k | 0 <= k < |a| :: a[k].role == b[k].role && a[k].calls == b[k].calls && a[k].callId == b[k].callId
  }

  lemma {:induction false} SkeletonPairs(a: seq<Message>, b: seq<Message>)
    requires SameSkeleton(a, b) && Paired(a)
    ensures Paired(b)
  {
    if a != [] {
      var n := UnitLength(a[0]);
      SkeletonPairs(a[n..], b[n..]);
      UnitSkeleton(a[..n], b[..n]);
    }
  }

  lemma {:induction false} UnitSkeleton(g: seq<Message>, g': seq<Message>)
    requires SameSkeleton(g, g') && Unit(g)
    ensures Unit(g') && UnitLength(g'[0]) == UnitLength(g[0])
  {
    if Opens(g[0]) { assert CallIds(g[1..]) == CallIds(g'[1..]); }
  }

  /****** System messages can move to the front ******/

  function Systems(h: seq<Message>): seq<Message> {
    if h == [] then [] else (if h[0].role.System? then [h[0]] else []) + Systems(h[1..])
  }

  function NonSystems(h: seq<Message>): seq<Message> {
    if h == [] then [] else (if h[0].role.System? then [] else [h[0]]) + NonSystems(h[1..])
  }

  lemma {:induction false} SystemsPaired(h: seq<Message>)
    ensures Paired(Systems(h))
  {
    if h != [] {
      SystemsPaired(h[1..]);
      if h[0].role.System? {
        PairedPlain(h[0], Systems(h[1..]));
      } else {
        assert Systems(h) == Systems(h[1..]);
      }
    }
  }

  lemma {:induction false} NoSystemInside(g: seq<Message>, rest: seq<Message>)
    requires forall k | 0 <= k < |g| :: !g[k].role.System?
    ensures NonSystems(g + rest) == g + NonSystems(rest)
  {
    if g == [] {
      assert g + rest == rest;
    } else {
      assert (g + rest)[1..] == g[1..] + rest;
      NoSystemInside(g[1..], rest);
    }
  }

  lemma {:induction false} UnitNonSystems(g: seq<Message>, rest: seq<Message>)
    requires Unit(g) && Paired(NonSystems(rest))
    ensures Paired(NonSystems(g + rest))
  {
    if g[0].role.System? {
      assert (g + rest)[1..] == rest;
      assert NonSystems(g + rest) == NonSystems(rest);
    } else {
      NoSystemInside(g, rest);
      PairedUnit(g, NonSystems(rest));
    }
  }

  lemma {:induction false} NonSystemsPaired(h: seq<Message>)
    requires Paired(h)
    ensures Paired(NonSystems(h))
  {
    if h != [] {
      var n := UnitLength(h[0]);
      NonSystemsPaired(h[n..]);
      assert h == h[..n] + h[n..];
      UnitNonSystems(h[..n], h[n..]);
    }
  }

  /** Moving the system messages of a paired history to its front keeps it paired. */
  lemma {:induction false} SystemsFirstPaired(h: seq<Message>)
    requires Paired(h)
    ensures Paired(Systems(h) + NonSystems(h))
  {
    SystemsPaired(h);
    NonSystemsPaired(h);
    PairedConcat(Systems(h), NonSystems(h));
  }
}
