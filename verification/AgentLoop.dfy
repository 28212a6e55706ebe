/**
 The loop of one agent in agents/agent_loop.py, with the writer's grants of agents/subagent.py: rounds
 of model calls within a budget, over a history that compaction may replace at any time.

 What happens outside (replies, tool results, judge and user) is an input: `Round` says, await by await,
 what comes back or what is raised.
 */
module AgentLoops {
  import opened Compactor
  import opened Dropping
  import opened DroppingProofs
  import opened History
  import opened Rewriting
  import opened Wrappers

  const LENGTH_CONTINUE_CAP := 3
  const FINISH_NUDGE_CAP := 3
  const LOOP_EXTEND_INCREMENT := 4
  const LOOP_EXTEND_MAX_TOTAL := 8
  const WRITER_CONTINUES := 2
  const TOOL_FUSE_PER_ROUND := 2
  const DEFAULT_TOOL_CALLS := 50
  const DEFAULT_SLICE := 16

  const CLOSER_MESSAGE := "closer"
  const CONTINUE_GRANT := "continue"
  const OUTPUT_CUTOFF_CONTINUE := "cutoff"
  const ABORTED := "(aborted by the user before completion)"

  /****** What comes from outside ******/

  /** An exception at an await: a cancellation, or any other. */
  datatype Fault = Cancelled | Failed

  datatype Step<T> = Done(value: T) | Raises(fault: Fault)

  datatype Compaction = Compaction(wanted: bool, limits: Limits, lastPromptTokens: nat, keepFull: int,
                                   summarizer: Summarizer, judge: Judge, fault: Option<Fault>)

  datatype Reply = Reply(text: string, calls: seq<string>, output: nat -> Content, counted: nat, cutoff: bool)

  datatype Attempt = Answer(reply: Reply) | Overflows | Breaks(fault: Fault)

  datatype Verdict = NoVerdict | NeedsInput(enforced: bool, answer: Option<string>) | MayExtend(enforced: bool) | KeepGoing

  datatype Choice = Continue | Stop | Handoff

  /** `toolFault` is the call at which a tool raises. */
  datatype Round = Round(first: Attempt, forced: Compaction, second: Attempt, toolFault: Option<(nat, Fault)>,
                         stop: Step<Option<string>>, compaction: Compaction, verdict: Step<Verdict>,
                         choice: Step<Choice>, nudge: Step<Option<string>>)

  datatype Why = Faulted(fault: Fault) | PairingBroken

  datatype Status = Ok | MaxTurns | Stopped

  datatype Outcome = Answered | EndedByTools | Exhausted | Raised(why: Why)

  /** The turns and the tool calls a run may use, and how many of the turns the judge has added. */
  datatype Budget = Budget(turns: int, tools: int, extended: nat)

  /** Where a run stands between two rounds. */
  datatype Point = Point(p: Progress, budget: Budget, calls: nat)

  /** A round that was followed by another: where the run stood, what the model replied, and where it
      stood then. */
  datatype Entry = Entry(before: Point, reply: Reply, after: Point)

  /** The counters of one run. `ceilings` are the budgets whose closing reminder has been given. */
  datatype Progress = Progress(turn: int, continues: nat, cutoffs: nat, nudges: nat, ceilings: set<int>)

  /****** Messages ******/

  function UserMessage(text: string): Message {
    Message(User, [], "", Text(text))
  }

  function AssistantMessage(text: string): Message {
    Message(Assistant, [], "", Text(text))
  }

  /** The assistant message of a tool round and the first `n` results, in call order. */
  function ToolRound(reply: Reply, n: nat): (g: seq<Message>)
    requires n <= |reply.calls|
    ensures |g| == 1 + n
  {
    [Message(Assistant, reply.calls, "", if reply.text == "" then Absent else Text(reply.text))]
    + seq(n, k requires 0 <= k < n => Message(Tool, [], reply.calls[k], reply.output(k)))
  }

  /** The assistant's text and calls, then the output of each call under its own id. */
  lemma {:induction false} ToolRoundHolds(reply: Reply, n: nat)
    requires n <= |reply.calls|
    ensures var g := ToolRound(reply, n);
            && g[0].role.Assistant? && g[0].calls == reply.calls && g[0].callId == ""
            && g[0].content == (if reply.text == "" then Absent else Text(reply.text))
            && forall k | 0 <= k < n :: g[k + 1] == Message(Tool, [], reply.calls[k], reply.output(k))
  {
  }

  /** What a provider owes: call ids that are there and differ. */
  ghost predicate GoodIds(reply: Reply) {
    "" !in reply.calls && Distinct(reply.calls)
  }

  ghost predicate GoodRound(r: Round) {
    && (r.first.Answer? ==> GoodIds(r.first.reply))
    && (r.second.Answer? ==> GoodIds(r.second.reply))
  }

  lemma {:induction false} RoundIsGroup(reply: Reply)
    requires reply.calls != []
    ensures ToolGroup(ToolRound(reply, |reply.calls|)) <==> GoodIds(reply)
  {
    var g := ToolRound(reply, |reply.calls|);
    assert CallIds(g[1..]) == reply.calls;
  }

  lemma {:induction false} PairedAppend(h: seq<Message>, m: Message)
    requires Paired(h) && Plain(m)
    ensures Paired(h + [m])
  {
    PairedPlain(m, h);
  }

  /** A complete tool round keeps the history paired exactly when its ids are good. */
  lemma {:induction false} RoundPairedIff(h: seq<Message>, reply: Reply)
    requires Paired(h) && reply.calls != []
    ensures Paired(h + ToolRound(reply, |reply.calls|)) <==> GoodIds(reply)
  {
    var g := ToolRound(reply, |reply.calls|);
    RoundIsGroup(reply);
    if GoodIds(reply) {
      PairedUnit(g, []);
      assert g + [] == g;
      PairedConcat(h, g);
    }
    if Paired(h + g) {
      PairedRest(h, g);
      assert UnitLength(g[0]) == |g| && g[..|g|] == g;
    }
  }

  /****** What an exceptional exit can rely on ******/

  /** `base` is still there at the front, except that screenshots in it may have been omitted. */
  ghost predicate KeptIn(base: seq<Message>, h: seq<Message>) {
    && |base| <= |h|
    && forall k | 0 <= k < |base| :: h[k] == base[k] || (IsScreenshot(base[k]) && h[k] == OmitImages(base[k]))
  }

  lemma {:induction false} KeptPruned(base: seq<Message>, h: seq<Message>, keep: int)
    requires KeptIn(base, h)
    ensures KeptIn(base, Pruned(h, keep))
  {
    RewriteOneByOne(h, IsScreenshot, OmitImages, OldCount(Count(h, IsScreenshot), keep));
  }

  lemma {:induction false} KeptWhenSaid(base: seq<Message>, m: Message)
    ensures KeptIn(base, base + [m])
  {
  }

  lemma {:induction false} KeptCut(base: seq<Message>, h: seq<Message>)
    requires KeptIn(base, h) && Paired(base)
    ensures Paired(h[..|base|]) && KeptIn(base, h[..|base|])
  {
    SkeletonPairs(base, h[..|base|]);
  }

  /** `del history[marker:]` */
  function CutAt(h: seq<Message>, marker: nat): seq<Message> {
    if marker < |h| then h[..marker] else h
  }

  function AfterFault(h: seq<Message>, marker: nat, task: string, why: Why): (after: seq<Message>)
    ensures why != Faulted(Cancelled) ==> after == if marker < |h| then h[..marker] else h
    ensures why == Faulted(Cancelled) ==>
              after == (if marker < |h| then h[..marker] else h)
                       + [UserMessage(task), AssistantMessage("(aborted by the user before completion)")]
  {
    if why == Faulted(Cancelled) then CutAt(h, marker) + [UserMessage(task), AssistantMessage(ABORTED)]
    else CutAt(h, marker)
  }

  lemma {:induction false} FaultRestores(base: seq<Message>, h: seq<Message>, task: string, why: Why)
    requires KeptIn(base, h) && Paired(base)
    ensures var after := AfterFault(h, |base|, task, why);
            && Paired(after) && KeptIn(base, after)
            && |after| == |base| + (if why == Faulted(Cancelled) then 2 else 0)
  {
    KeptCut(base, h);
    var cut := CutAt(h, |base|);
    assert cut == h[..|base|];
    if why == Faulted(Cancelled) {
      PairedAppend(cut, UserMessage(task));
      PairedAppend(cut + [UserMessage(task)], AssistantMessage(ABORTED));
      assert cut + [UserMessage(task)] + [AssistantMessage(ABORTED)] == cut + [UserMessage(task), AssistantMessage(ABORTED)];
    }
  }

  /****** What an exception leaves after a compaction ******/

  /** A tool round no front of which is a history of its own. */
  ghost predicate OpenRound(part: seq<Message>) {
    part != [] && forall n | 0 < n <= |part| :: !Paired(part[..n])
  }

  lemma {:induction false} BrokenRoundIsOpen(reply: Reply, n: nat)
    requires reply.calls != [] && n <= |reply.calls| && (n < |reply.calls| || !GoodIds(reply))
    ensures OpenRound(ToolRound(reply, n))
  {
    var part := ToolRound(reply, n);
    RoundIsGroup(reply);
    forall k | 0 < k <= |part| ensures !Paired(part[..k]) {
      var front := part[..k];
      assert front[0] == part[0] && UnitLength(front[0]) == 1 + |reply.calls|;
      if k == 1 + |reply.calls| { assert front[..k] == part; }
    }
  }

  /** The first `whole` messages are a history of their own; anything after them is an open round. */
  ghost predicate TornAt(h: seq<Message>, whole: nat) {
    whole <= |h| && Paired(h[..whole]) && (whole == |h| || OpenRound(h[whole..]))
  }

  ghost predicate Torn(h: seq<Message>) {
    exists whole: nat :: TornAt(h, whole)
  }

  lemma {:induction false} PairedIsTorn(h: seq<Message>)
    requires Paired(h)
    ensures TornAt(h, |h|)
  {
    assert h[..|h|] == h;
  }

  lemma {:induction false} RoundTears(done: seq<Message>, reply: Reply, n: nat)
    requires Paired(done) && reply.calls != [] && n <= |reply.calls| && (n < |reply.calls| || !GoodIds(reply))
    ensures TornAt(done + ToolRound(reply, n), |done|)
  {
    var part := ToolRound(reply, n);
    BrokenRoundIsOpen(reply, n);
    assert (done + part)[..|done|] == done && (done + part)[|done|..] == part;
  }

  lemma {:induction false} TornRewritten(a: seq<Message>, b: seq<Message>, whole: nat)
    requires TornAt(a, whole) && SameSkeleton(a, b)
    ensures TornAt(b, whole)
  {
    SkeletonPairs(a[..whole], b[..whole]);
    if whole < |a| {
      forall n | 0 < n <= |b| - whole ensures !Paired(b[whole..][..n]) {
        if Paired(b[whole..][..n]) { SkeletonPairs(b[whole..][..n], a[whole..][..n]); }
      }
    }
  }

  /** What can be told from the marker and two neighbours: the cut is inside the whole part and splits no
      group, or it removes nothing and there is no open round. */
  predicate CleanCut(h: seq<Message>, whole: nat, marker: nat)
    requires whole <= |h|
  {
    if marker >= |h| then whole == |h|
    else marker <= whole && (marker == 0 || marker == whole || !SplitsGroup(h, marker))
  }

  /** No front that reaches into the open round is paired. */
  lemma {:induction false} NoFrontOfOpenRound(h: seq<Message>, whole: nat, n: nat)
    requires TornAt(h, whole) && whole < n <= |h|
    ensures !Paired(h[..n])
  {
    var part := h[whole..];
    if Paired(h[..n]) {
      assert h[..n] == h[..whole] + part[..n - whole];
      PairedRest(h[..whole], part[..n - whole]);
    }
  }

  lemma {:induction false} CutPairedIff(h: seq<Message>, whole: nat, marker: nat)
    requires TornAt(h, whole)
    ensures Paired(CutAt(h, marker)) <==> CleanCut(h, whole, marker)
  {
    if marker >= |h| {
      assert h[..|h|] == h;
      if whole < |h| { NoFrontOfOpenRound(h, whole, |h|); }
    } else if marker > whole {
      NoFrontOfOpenRound(h, whole, marker);
    } else if 0 < marker < whole {
      var done := h[..whole];
      CutIsBetween(done, marker);
      assert done[..marker] == h[..marker];
      if Paired(h[..marker]) {
        assert done == done[..marker] + done[marker..];
        PairedRest(done[..marker], done[marker..]);
      }
    } else {
      assert h[..marker] == if marker == 0 then [] else h[..whole];
    }
  }

  /** A cancellation adds two plain messages, which close no open round. */
  lemma {:induction false} AbortPairedIff(h: seq<Message>, user: Message, reply: Message)
    requires Plain(user) && Plain(reply)
    ensures Paired(h + [user, reply]) <==> Paired(h)
  {
    var all := h + [user, reply];
    if Paired(h) {
      PairedAppend(h, user);
      PairedAppend(h + [user], reply);
      assert h + [user] + [reply] == all;
    }
    if Paired(all) && h != [] {
      var c := |h|;
      if Opens(all[c - 1]) { OpenerIsFollowed(all, c - 1); }
      CutIsBetween(all, c);
      assert all[..c] == h;
    }
  }

  /** Exactly when an exceptional exit leaves a paired history, whatever the marker. */
  lemma {:induction false} FaultPairedIff(h: seq<Message>, whole: nat, marker: nat, task: string, why: Why)
    requires TornAt(h, whole)
    ensures Paired(AfterFault(h, marker, task, why)) <==> CleanCut(h, whole, marker)
  {
    CutPairedIff(h, whole, marker);
    AbortPairedIff(CutAt(h, marker), UserMessage(task), AssistantMessage(ABORTED));
  }

  /** The case of an exception in a tool round. */
  lemma {:induction false} ToolFaultPairedIff(done: seq<Message>, reply: Reply, n: nat, marker: nat, task: string, why: Why)
    requires Paired(done) && reply.calls != [] && n < |reply.calls|
    ensures Paired(AfterFault(done + ToolRound(reply, n), marker, task, why)) <==>
            marker <= |done| && (marker == 0 || marker == |done| || !SplitsGroup(done, marker))
  {
    var part := ToolRound(reply, n);
    var h := done + part;
    RoundTears(done, reply, n);
    FaultPairedIff(h, |done|, marker, task, why);
    if 0 < marker < |done| { assert SplitsGroup(h, marker) == SplitsGroup(done, marker); }
  }

  /****** Compaction as the loop sees it ******/

  /** The estimate has reached the trigger. */
  predicate Runs(messages: seq<Message>, c: Compaction) {
    ScaledTokens(Pruned(messages, SCREENSHOT_KEEP), c.limits, c.lastPromptTokens) >= Trigger(c.limits)
  }

  /** The history taken over from a compaction of the system prompt and the history. */
  ghost predicate CompactionGives(messages: seq<Message>, c: Compaction, h: seq<Message>) {
    exists out, info ::
      && Compacted(messages, c.limits, c.keepFull, c.summarizer, c.judge, out, info)
      && out != [] && h == Systems(out[1..]) + NonSystems(out[1..])
  }

  lemma {:induction false} AdoptedPaired(out: seq<Message>)
    requires Paired(out) && out != [] && Plain(out[0])
    ensures Paired(Systems(out[1..]) + NonSystems(out[1..]))
  {
    assert out == [out[0]] + out[1..];
    PairedPlain(out[0], out[1..]);
    SystemsFirstPaired(out[1..]);
  }

  /** A tool of the first reply raises. */
  predicate Fires(toolFault: Option<(nat, Fault)>, reply: Reply) {
    reply.calls != [] && toolFault.Some? && toolFault.value.0 < |reply.calls|
  }

  predicate FirstToolRaises(r: Round) {
    r.first.Answer? && Fires(r.toolFault, r.first.reply)
  }

  /****** Budgets ******/

  function AtLeastOne(n: int): (r: nat)
    ensures r >= 1 && (n >= 1 ==> r == n) && (n < 1 ==> r == 1)
  {
    if n < 1 then 1 else n
  }

  /** `max(1, int(n or 50))` */
  function ToolBudget(n: int): (r: nat)
    ensures (n > 0 ==> r == n) && (n == 0 ==> r == 50) && (n < 0 ==> r == 1)
  {
    AtLeastOne(if n == 0 then DEFAULT_TOOL_CALLS else n)
  }

  /** Rounds a budget of turns pays for. */
  function Turns(maxTurns: int): nat {
    if maxTurns < 0 then 0 else maxTurns
  }

  lemma {:induction false} OneGrantLess(slice: nat, left: nat)
    requires left > 0
    ensures slice * left == slice + slice * (left - 1)
  {
  }

  class AgentLoop {
    const system: string
    const writer: bool
    const tester: bool
    const concurrent: bool
    const maxContinues: int
    const neverAsk: bool
    const turnSlice: int
    const interval: int

    var history: seq<Message>
    var maxTurns: int
    var maxToolCalls: int
    var toolCalls: nat
    var contextBudget: int
    var overflowRetried: bool
    var extendedBy: nat
    var exitStatus: Status
    ghost var compactions: nat
    ghost var modelCalls: nat

    constructor (system: string, writer: bool, tester: bool, concurrent: bool, maxContinues: int, neverAsk: bool,
                 turnSlice: int, interval: int, maxTurns: int, maxToolCalls: int, contextBudget: int)
      ensures history == [] && this.writer == writer && this.maxContinues == maxContinues && this.turnSlice == turnSlice
      ensures this.maxTurns == maxTurns && this.maxToolCalls == maxToolCalls && !overflowRetried
    {
      this.system, this.writer, this.tester, this.concurrent := system, writer, tester, concurrent;
      this.maxContinues, this.neverAsk, this.turnSlice, this.interval := maxContinues, neverAsk, turnSlice, interval;
      this.maxTurns, this.maxToolCalls, this.contextBudget := maxTurns, maxToolCalls, contextBudget;
      history, toolCalls, overflowRetried, extendedBy, exitStatus := [], 0, false, 0, Ok;
      compactions, modelCalls := 0, 0;
    }

    /** `max(1, int(turn_slice or 16))` */
    function Slice(): (n: nat)
      ensures n == if turnSlice > 0 then turnSlice else if turnSlice == 0 then 16 else 1
    {
      AtLeastOne(if turnSlice == 0 then DEFAULT_SLICE else turnSlice)
    }

    /** How many slices one run can be granted. */
    function GrantLimit(): (n: nat)
      ensures writer ==> n == 2
      ensures !writer ==> (maxContinues > 0 ==> n == maxContinues) && (maxContinues <= 0 ==> n == 0)
    {
      if writer then WRITER_CONTINUES else if maxContinues < 0 then 0 else maxContinues
    }

    /** The most rounds one run can take. */
    function RoundLimit(turns: int): (n: nat)
      ensures n == (if turns > 0 then turns else 0) + Slice() * GrantLimit() + 8 + 3
    {
      Turns(turns) + Slice() * GrantLimit() + LOOP_EXTEND_MAX_TOTAL + LENGTH_CONTINUE_CAP
    }

    function BuildMessages(): (out: seq<Message>)
      reads this
      ensures |out| == |history| + 1 && out[0].role == System && out[0].content == Text(system) && out[0].calls == []
      ensures out[1..] == history
    {
      [Message(System, [], "", Text(system))] + history
    }

    function Asked(task: string): seq<Message>
      reads this
    {
      BuildMessages() + [UserMessage(task)]
    }

    /** The request to the model; it is only ever sent a paired history. */
    ghost method SendModel(messages: seq<Message>)
      requires Paired(messages)
      modifies `modelCalls
      ensures modelCalls == old(modelCalls) + 1
    {
      modelCalls := modelCalls + 1;
    }

    method Say(m: Message)
      requires Paired(history) && Plain(m)
      modifies `history
      ensures history == old(history) + [m] && Paired(history)
    {
      PairedAppend(history, m);
      history := history + [m];
    }

    method MaybeInjectCloser(turn: int, ceilings: set<int>) returns (told: set<int>)
      requires Paired(history)
      modifies `history
      ensures Paired(history)
      ensures var due := maxTurns >= 3 && turn == maxTurns - 2 && maxTurns !in ceilings;
              && history == (if due then old(history) + [UserMessage(CLOSER_MESSAGE)] else old(history))
              && told == if due then ceilings + {maxTurns} else ceilings
    {
      told := ceilings;
      if maxTurns < 3 || turn != maxTurns - 2 || maxTurns in ceilings { return; }
      told := ceilings + {maxTurns};
      Say(UserMessage(CLOSER_MESSAGE));
    }

    /** Compaction of the system prompt and the history, system messages moved to the front. It never
        raises on its own. */
    method MaybeCompact(force: bool, c: Compaction) returns (fault: Option<Fault>)
      requires Paired(history)
      modifies `history, `compactions
      ensures Paired(history) && compactions >= old(compactions)
      ensures compactions == old(compactions) ==> history == old(history)
      ensures fault == if force || c.wanted then c.fault else None
      ensures var messages := old(BuildMessages());
              if (force || c.wanted) && c.fault.None? && Runs(messages, c) then CompactionGives(messages, c, history)
              else history == old(history)
    {
      if !force && !c.wanted { return None; }
      if c.fault.Some? { return c.fault; }
      var messages := BuildMessages();
      PairedPlain(messages[0], history);
      var r := Compact(messages, c.limits, c.lastPromptTokens, c.keepFull, c.summarizer, c.judge);
      var (compacted, info) := r.value;
      assert Runs(messages, c) ==> Compacted(messages, c.limits, c.keepFull, c.summarizer, c.judge, compacted, info);
      if info.strategy.Noop? { return None; }
      AdoptedPaired(compacted);
      history := Systems(compacted[1..]) + NonSystems(compacted[1..]);
      compactions := compactions + 1;
      return None;
    }

    /** The reply of a round: the model's first, or after the first overflow its second. */
    ghost predicate Answers(r: Round, retried: bool, reply: Reply) {
      || r.first == Answer(reply)
      || (r.first.Overflows? && !retried && r.forced.fault == None && r.second == Answer(reply))
    }

    /** What is raised when there is no reply. */
    ghost predicate NoReply(r: Round, retried: bool, fault: Fault) {
      match r.first
      case Answer(_) => false
      case Breaks(raised) => fault == raised
      case Overflows =>
        if retried then fault == Failed
        else if r.forced.fault.Some? then fault == r.forced.fault.value
        else if r.second.Breaks? then fault == r.second.fault
        else r.second.Overflows? && fault == Failed
    }

    /** One round's reply; the first overflow of the loop object halves the budget, compacts and asks
        once more. */
    method Complete(r: Round) returns (reply: Option<Reply>, fault: Fault)
      requires Paired(history)
      modifies `history, `compactions, `modelCalls, `contextBudget, `overflowRetried
      ensures Paired(history) && compactions >= old(compactions)
      ensures compactions == old(compactions) ==> history == old(history)
      ensures old(overflowRetried) ==> overflowRetried && contextBudget == old(contextBudget)
      ensures modelCalls <= old(modelCalls) + (if overflowRetried && !old(overflowRetried) then 2 else 1)
      ensures contextBudget == if overflowRetried == old(overflowRetried) then old(contextBudget) else AtLeastOne(old(contextBudget) / 2)
      ensures reply.Some? ==>
                || r.first == Answer(reply.value)
                || (r.first.Overflows? && !old(overflowRetried) && r.second == Answer(reply.value))
      ensures r.first.Answer? ==> reply == Some(r.first.reply) && history == old(history)
      ensures r.first.Breaks? ==> reply == None && fault == r.first.fault
      ensures overflowRetried == (old(overflowRetried) || r.first.Overflows?)
      ensures reply.None? ==> NoReply(r, old(overflowRetried), fault)
      ensures reply.Some? ==> Answers(r, old(overflowRetried), reply.value)
    {
      fault := Failed;
      PairedPlain(BuildMessages()[0], history);
      SendModel(BuildMessages());
      match r.first
      case Answer(given) => return Some(given), fault;
      case Breaks(raised) => return None, raised;
      case Overflows =>
        if overflowRetried { return None, Failed; }
        overflowRetried := true;
        contextBudget := AtLeastOne(contextBudget / 2);
        var raised := MaybeCompact(true, r.forced);
        if raised.Some? { return None, raised.value; }
        PairedPlain(BuildMessages()[0], history);
        SendModel(BuildMessages());
        match r.second {
          case Answer(given) => return Some(given), fault;
          case Breaks(again) => return None, again;
          case Overflows => return None, Failed;
        }
    }

    /** What a raising tool leaves of its round; results that ran beside it are lost with it. */
    function RoundSoFar(reply: Reply, call: nat): seq<Message>
      requires call < |reply.calls|
    {
      ToolRound(reply, if concurrent && |reply.calls| > 1 then 0 else call)
    }

    /** Calls that run one after the other have results up to the one that raised; together they have none. */
    lemma {:induction false} ResultsSoFar(reply: Reply, call: nat)
      requires call < |reply.calls|
      ensures |RoundSoFar(reply, call)| == if concurrent && |reply.calls| > 1 then 1 else 1 + call
    {
    }

    /** A tool round: the calls, their results in call order, pruning, and the check of the pairing. */
    method Dispatch(reply: Reply, toolFault: Option<(nat, Fault)>) returns (why: Option<Why>)
      requires Paired(history) && reply.calls != []
      modifies `history, `toolCalls
      ensures why == None ==> Paired(history) && history == Pruned(old(history) + ToolRound(reply, |reply.calls|), SCREENSHOT_KEEP)
      ensures why == None ==> toolCalls == old(toolCalls) + reply.counted
      ensures why == Some(PairingBroken) ==> !GoodIds(reply)
      ensures why == if Fires(toolFault, reply) then Some(Faulted(toolFault.value.1))
                     else if GoodIds(reply) then None else Some(PairingBroken)
      ensures why != None ==> Torn(history)
      ensures Fires(toolFault, reply) ==>
                why == Some(Faulted(toolFault.value.1)) && history == old(history) + RoundSoFar(reply, toolFault.value.0)
      ensures forall base | KeptIn(base, old(history)) :: KeptIn(base, history)
    {
      ghost var before := history;
      if toolFault.Some? && toolFault.value.0 < |reply.calls| {
        var done := if concurrent && |reply.calls| > 1 then 0 else toolFault.value.0;
        history := history + ToolRound(reply, done);
        RoundTears(before, reply, done);
        return Some(Faulted(toolFault.value.1));
      }
      history := history + ToolRound(reply, |reply.calls|);
      toolCalls := toolCalls + reply.counted;
      RoundPairedIff(before, reply);
      if !GoodIds(reply) { RoundTears(before, reply, |reply.calls|); }
      ghost var full := history;
      history := PruneScreenshots(history);
      forall base | KeptIn(base, before) ensures KeptIn(base, history) { KeptPruned(base, full, SCREENSHOT_KEEP); }
      PrunedPairedIff(full, SCREENSHOT_KEEP);
      if !GoodIds(reply) { TornRewritten(full, history, |before|); }
      var errors := ValidateHistory(history);
      if errors != [] { return Some(PairingBroken); }
      return None;
    }

    function Near(turn: int): bool
      reads `maxTurns
    {
      turn >= maxTurns - 2
    }

    method GrantSlice(n: nat)
      modifies `maxTurns, `maxToolCalls
      ensures maxTurns == old(maxTurns) + n && maxToolCalls == ToolBudget(old(maxToolCalls)) + n * TOOL_FUSE_PER_ROUND
    {
      maxTurns := maxTurns + n;
      maxToolCalls := ToolBudget(maxToolCalls) + n * TOOL_FUSE_PER_ROUND;
    }

    /** The judge is asked near the ceiling, and every few turns. */
    predicate JudgeAsked(turn: int, ceiling: int) {
      turn >= ceiling - 2 || turn % AtLeastOne(interval) == 0
    }

    /** What the user answers when the judge thinks only the user can decide. */
    function Heard(turn: int, ceiling: int, verdict: Step<Verdict>): seq<Message> {
      match verdict
      case Done(NeedsInput(true, Some(answer))) =>
        if JudgeAsked(turn, ceiling) && answer != "" then [UserMessage(answer)] else []
      case _ => []
    }

    /** The turns the judge adds. */
    function Extension(turn: int, b: Budget, verdict: Step<Verdict>): nat {
      if verdict == Done(MayExtend(true)) && turn >= b.turns - 2 && !tester && b.extended < LOOP_EXTEND_MAX_TOTAL then
        if LOOP_EXTEND_INCREMENT < LOOP_EXTEND_MAX_TOTAL - b.extended then LOOP_EXTEND_INCREMENT else LOOP_EXTEND_MAX_TOTAL - b.extended
      else 0
    }

    /** Near the ceiling the judge may grant a few more turns, eight in all for one run. */
    method JudgeProgress(turn: int, verdict: Step<Verdict>) returns (fault: Option<Fault>)
      requires Paired(history) && extendedBy <= LOOP_EXTEND_MAX_TOTAL
      modifies `history, `maxTurns, `maxToolCalls, `extendedBy
      ensures Paired(history) && extendedBy <= LOOP_EXTEND_MAX_TOTAL
      ensures maxTurns - extendedBy == old(maxTurns) - old(extendedBy)
      ensures var left := LOOP_EXTEND_MAX_TOTAL - old(extendedBy);
              extendedBy - old(extendedBy) ==
              if verdict == Done(MayExtend(true)) && turn >= old(maxTurns) - 2 && !tester
              then (if LOOP_EXTEND_INCREMENT < left then LOOP_EXTEND_INCREMENT else left) else 0
      ensures var n := extendedBy - old(extendedBy);
              maxToolCalls == if n == 0 then old(maxToolCalls) else ToolBudget(old(maxToolCalls)) + 2 * n
      ensures var asked := turn >= old(maxTurns) - 2 || turn % AtLeastOne(interval) == 0;
              && fault == (if asked && verdict.Raises? then Some(verdict.fault) else None)
              && (fault == None ==>
                    history == old(history) + match verdict
                                              case Done(NeedsInput(true, Some(answer))) => if asked && answer != "" then [UserMessage(answer)] else []
                                              case _ => [])
      ensures fault.Some? ==> history == old(history)
    {
      if !Near(turn) && turn % AtLeastOne(interval) != 0 { return None; }
      if verdict.Raises? { return Some(verdict.fault); }
      match verdict.value
      case NeedsInput(true, Some(answer)) =>
        if answer != "" { Say(UserMessage(answer)); }
        return None;
      case MayExtend(true) =>
        if Near(turn) && !tester && extendedBy < LOOP_EXTEND_MAX_TOTAL {
          var left := LOOP_EXTEND_MAX_TOTAL - extendedBy;
          var n := if LOOP_EXTEND_INCREMENT < left then LOOP_EXTEND_INCREMENT else left;
          GrantSlice(n);
          extendedBy := extendedBy + n;
        }
        return None;
      case _ => return None;
    }

    /** The answer to a used-up budget. */
    function Offered(continues: nat, choice: Step<Choice>): Step<Choice> {
      if writer then Done(if continues < WRITER_CONTINUES then Continue else Handoff)
      else if continues >= maxContinues || neverAsk then Done(Handoff)
      else choice
    }

    /** A writer is granted two slices unasked; others ask the user, within `max_continues`. */
    method OfferContinue(continues: nat, choice: Step<Choice>) returns (action: Step<Choice>)
      ensures action == Done(Continue) ==> continues < GrantLimit()
      ensures writer ==> action == Done(if continues < WRITER_CONTINUES then Continue else Handoff)
      ensures !writer ==> action == if continues >= maxContinues || neverAsk then Done(Handoff) else choice
      ensures action == Offered(continues, choice)
    {
      if writer { return Done(if continues < WRITER_CONTINUES then Continue else Handoff); }
      if continues >= maxContinues || neverAsk { return Done(Handoff); }
      return choice;
    }

    /** One slice more, or the end of the run. */
    method TryContinue(continues: nat, choice: Step<Choice>) returns (granted: Option<nat>, fault: Option<Fault>)
      requires Paired(history)
      modifies `history, `maxTurns, `maxToolCalls, `exitStatus
      ensures Paired(history)
      ensures granted.Some? ==> fault.None? && granted.value == continues + 1 <= GrantLimit() && maxTurns == old(maxTurns) + Slice()
      ensures granted.None? ==> history == old(history) && maxTurns == old(maxTurns)
      ensures granted.Some? ==> history == old(history) + [UserMessage(CONTINUE_GRANT)] && exitStatus == old(exitStatus)
      ensures granted.None? && fault.None? ==>
                exitStatus == if !writer && continues < maxContinues && !neverAsk && choice == Done(Stop) then Stopped else MaxTurns
      ensures maxToolCalls == if granted.Some? then ToolBudget(old(maxToolCalls)) + 2 * Slice() else old(maxToolCalls)
      ensures var offer := Offered(continues, choice);
              && fault == (if offer.Raises? then Some(offer.fault) else None)
              && (granted.Some? <==> offer == Done(Continue))
    {
      var action := OfferContinue(continues, choice);
      if action.Raises? { return None, Some(action.fault); }
      if action.value.Continue? {
        GrantSlice(Slice());
        Say(UserMessage(CONTINUE_GRANT));
        return Some(continues + 1), None;
      }
      exitStatus := if action.value.Stop? then Stopped else MaxTurns;
      return None, None;
    }

    /** What one run may still spend: turns, grants, extensions and cutoff continuations. A grant moves a
        slice from one term to another; every round takes one off the sum. */
    ghost function Fuel(turn: int, continues: nat, cutoffs: nat): int
      reads `maxTurns, `extendedBy
    {
      (maxTurns - turn) + Slice() * (GrantLimit() - continues) + (LOOP_EXTEND_MAX_TOTAL - extendedBy) + (LENGTH_CONTINUE_CAP - cutoffs)
    }

    ghost predicate Within(turn: int, continues: nat, cutoffs: nat)
      reads `maxTurns, `extendedBy
    {
      turn <= maxTurns && continues <= GrantLimit() && extendedBy <= LOOP_EXTEND_MAX_TOTAL && cutoffs <= LENGTH_CONTINUE_CAP
    }

    /** As long as nothing was compacted, the history the run started with is still there. */
    ghost predicate Intact(base: seq<Message>, start: nat)
      reads `history, `compactions
    {
      compactions >= start && (compactions == start ==> KeptIn(base, history))
    }

    lemma {:induction false} FuelLeft(turn: int, continues: nat, cutoffs: nat)
      requires Within(turn, continues, cutoffs)
      ensures Fuel(turn, continues, cutoffs) >= maxTurns - turn
    {
      assert Slice() * (GrantLimit() - continues) >= 0;
    }

    /** Only a used-up budget changes the exit status. */
    predicate StatusFits(end: Option<Outcome>, before: Status)
      reads `exitStatus
    {
      match end
      case Some(Exhausted) => exitStatus != Ok
      case Some(Raised(_)) => true
      case _ => exitStatus == before
    }

    /** How the calls of a reply end the run, if they do. */
    ghost function ToolsEnd(r: Round, reply: Reply): Option<Outcome> {
      if Fires(r.toolFault, reply) then Some(Raised(Faulted(r.toolFault.value.1)))
      else if !GoodIds(reply) then Some(Raised(PairingBroken))
      else
        match r.stop
        case Raises(fault) => Some(Raised(Faulted(fault)))
        case Done(Some(_)) => Some(EndedByTools)
        case Done(None) => None
    }

    /** The calls of a reply, and the text with which tools may end the run. */
    method CallTools(r: Round, reply: Reply, ghost base: seq<Message>, ghost start: nat) returns (end: Option<Outcome>)
      requires Paired(history) && reply.calls != [] && Intact(base, start)
      modifies `history, `toolCalls
      ensures Intact(base, start)
      ensures end.None? || !end.value.Raised? ==> Paired(history)
      ensures end == Some(Raised(PairingBroken)) ==> !GoodIds(reply)
      ensures end == None ==> history == Pruned(old(history) + ToolRound(reply, |reply.calls|), SCREENSHOT_KEEP)
      ensures end == Some(EndedByTools) ==>
                && r.stop.Done? && r.stop.value.Some?
                && history == Pruned(old(history) + ToolRound(reply, |reply.calls|), SCREENSHOT_KEEP) + [AssistantMessage(r.stop.value.value)]
      ensures end.Some? ==> end.value.Raised? || end.value.EndedByTools?
      ensures end == ToolsEnd(r, reply)
      ensures end == None ==> toolCalls == old(toolCalls) + reply.counted
      ensures end.Some? && end.value.Raised? ==> Torn(history)
      ensures Fires(r.toolFault, reply) ==>
                && end == Some(Raised(Faulted(r.toolFault.value.1)))
                && history == old(history) + RoundSoFar(reply, r.toolFault.value.0)
    {
      var why := Dispatch(reply, r.toolFault);
      if why.Some? { return Some(Raised(why.value)); }
      PairedIsTorn(history);
      if r.stop.Raises? { return Some(Raised(Faulted(r.stop.fault))); }
      if r.stop.value.None? { return None; }
      Say(AssistantMessage(r.stop.value.value));
      return Some(EndedByTools);
    }

    /** Where a reply with tool calls leads: the calls may end the run, the compaction may raise, and then
        a turn is spent. */
    ghost predicate ToolRoundGoes(r: Round, m: Reply, turn: int, continues: nat, calls: nat, before: Budget,
                                  grants: nat, end: Option<Outcome>, callsAfter: nat, after: Budget, status: Status) {
      if ToolsEnd(r, m).Some? then end == ToolsEnd(r, m)
      else if r.compaction.wanted && r.compaction.fault.Some? then end == Some(Raised(Faulted(r.compaction.fault.value)))
      else
        && callsAfter == calls + m.counted
        && Spends(r, turn + 1, continues, callsAfter, before, grants, end, after, status)
    }

    /** The rest of a round after a reply with tool calls. */
    method ToolPath(r: Round, reply: Reply, turn: int, continues: nat, cutoffs: nat, ghost base: seq<Message>, ghost start: nat)
      returns (next: int, grants: nat, end: Option<Outcome>)
      requires Paired(history) && reply.calls != [] && Within(turn, continues, cutoffs) && turn < maxTurns && Intact(base, start)
      modifies `history, `toolCalls, `compactions, `maxTurns, `maxToolCalls, `extendedBy, `exitStatus
      ensures Intact(base, start)
      ensures end == None ==> Within(next, grants, cutoffs) && Fuel(next, grants, cutoffs) < old(Fuel(turn, continues, cutoffs))
      ensures end.None? || !end.value.Raised? ==> Paired(history)
      ensures end == Some(Raised(PairingBroken)) ==> !GoodIds(reply)
      ensures end == None ==> next == turn + 1 && continues <= grants <= continues + 1
      ensures end != Some(Answered)
      ensures compactions >= old(compactions)
      ensures ToolRoundGoes(r, reply, turn, continues, old(toolCalls), old(Allowance()), grants, end, toolCalls, Allowance(), exitStatus)
      ensures end == None && compactions == old(compactions) ==>
                history == Pruned(old(history) + ToolRound(reply, |reply.calls|), SCREENSHOT_KEEP)
                           + Heard(turn + 1, old(maxTurns), r.verdict) + Granting(grants > continues)
      ensures end.Some? && end.value.Raised? ==> Torn(history)
      ensures Fires(r.toolFault, reply) ==>
                && end == Some(Raised(Faulted(r.toolFault.value.1)))
                && history == old(history) + RoundSoFar(reply, r.toolFault.value.0)
      ensures StatusFits(end, old(exitStatus))
    {
      next, grants := turn, continues;
      end := CallTools(r, reply, base, start);
      if end.Some? { return; }
      var fault := MaybeCompact(false, r.compaction);
      PairedIsTorn(history);
      if fault.Some? { return next, grants, Some(Raised(Faulted(fault.value))); }
      next := turn + 1;
      grants, end := SpendTurn(r, turn, continues, cutoffs, base, start);
      PairedIsTorn(history);
    }

    ghost function Allowance(): Budget
      reads `maxTurns, `maxToolCalls, `extendedBy
    {
      Budget(maxTurns, ToolBudget(maxToolCalls), extendedBy)
    }

    function Granting(granted: bool): seq<Message> {
      if granted then [UserMessage(CONTINUE_GRANT)] else []
    }

    /** The budget after the judge has been asked. */
    function Extended(turn: int, b: Budget, verdict: Step<Verdict>): Budget {
      var n := Extension(turn, b, verdict);
      Budget(b.turns + n, b.tools + 2 * n, b.extended + n)
    }

    function WithSlice(b: Budget): Budget {
      b.(turns := b.turns + Slice(), tools := b.tools + 2 * Slice())
    }

    /** What follows `turn` turns and `calls` tool calls on a budget: the judge is heard first; then, if
        either is used up, the run goes on with one slice more or ends. */
    ghost predicate Spends(r: Round, turn: int, continues: nat, calls: nat, before: Budget,
                           grants: nat, end: Option<Outcome>, after: Budget, status: Status) {
      if JudgeAsked(turn, before.turns) && r.verdict.Raises? then end == Some(Raised(Faulted(r.verdict.fault)))
      else Renews(r, turn, continues, calls, Extended(turn, before, r.verdict), grants, end, after, status)
    }

    ghost predicate Renews(r: Round, turn: int, continues: nat, calls: nat, b: Budget,
                           grants: nat, end: Option<Outcome>, after: Budget, status: Status) {
      var offer := Offered(continues, r.choice);
      if turn < b.turns && calls < b.tools then end == None && grants == continues && after == b
      else if offer.Raises? then end == Some(Raised(Faulted(offer.fault)))
      else if offer == Done(Continue) then end == None && grants == continues + 1 && after == WithSlice(b)
      else end == Some(Exhausted) && status == (if offer == Done(Stop) then Stopped else MaxTurns)
    }

    /** A turn is spent: the judge may extend the budget, and a used-up budget needs a grant. */
    method SpendTurn(r: Round, turn: int, continues: nat, cutoffs: nat, ghost base: seq<Message>, ghost start: nat)
      returns (grants: nat, end: Option<Outcome>)
      requires Paired(history) && Within(turn, continues, cutoffs) && turn < maxTurns && Intact(base, start)
      modifies `history, `maxTurns, `maxToolCalls, `extendedBy, `exitStatus
      ensures Intact(base, start)
      ensures end == None ==> Within(turn + 1, grants, cutoffs) && Fuel(turn + 1, grants, cutoffs) < old(Fuel(turn, continues, cutoffs))
      ensures Paired(history)
      ensures end == None ==> continues <= grants <= continues + 1
      ensures end.None? || end.value.Exhausted? || (end.value.Raised? && end.value.why.Faulted?)
      ensures end == None && grants == continues ==> turn + 1 < maxTurns && toolCalls < ToolBudget(maxToolCalls)
      ensures end == None && grants > continues ==>
                turn + 1 >= maxTurns - Slice() || toolCalls >= ToolBudget(maxToolCalls) - 2 * Slice()
      ensures end == Some(Exhausted) ==> turn + 1 >= maxTurns || toolCalls >= ToolBudget(maxToolCalls)
      ensures Spends(r, turn + 1, continues, toolCalls, old(Allowance()), grants, end, Allowance(), exitStatus)
      ensures end == None ==>
                history == old(history) + Heard(turn + 1, old(maxTurns), r.verdict) + Granting(grants > continues)
      ensures StatusFits(end, old(exitStatus))
    {
      grants, end := continues, None;
      var fault := JudgeProgress(turn + 1, r.verdict);
      if fault.Some? { return grants, Some(Raised(Faulted(fault.value))); }
      ghost var b := Allowance();
      grants, end := Renew(r, turn + 1, continues, cutoffs, base, start);
      assert b == Extended(turn + 1, old(Allowance()), r.verdict);
    }

    /** A used-up budget needs a grant. */
    method Renew(r: Round, turn: int, continues: nat, cutoffs: nat, ghost base: seq<Message>, ghost start: nat)
      returns (grants: nat, end: Option<Outcome>)
      requires Paired(history) && Within(turn, continues, cutoffs) && Intact(base, start)
      modifies `history, `maxTurns, `maxToolCalls, `exitStatus
      ensures Intact(base, start)
      ensures end == None ==> Within(turn, grants, cutoffs) && Fuel(turn, grants, cutoffs) == old(Fuel(turn, continues, cutoffs))
      ensures Paired(history)
      ensures end == None ==> continues <= grants <= continues + 1
      ensures end.None? || end.value.Exhausted? || (end.value.Raised? && end.value.why.Faulted?)
      ensures end == None && grants == continues ==> turn < maxTurns && toolCalls < ToolBudget(maxToolCalls)
      ensures end == None && grants > continues ==>
                turn >= maxTurns - Slice() || toolCalls >= ToolBudget(maxToolCalls) - 2 * Slice()
      ensures end == Some(Exhausted) ==> turn >= maxTurns || toolCalls >= ToolBudget(maxToolCalls)
      ensures Renews(r, turn, continues, toolCalls, old(Allowance()), grants, end, Allowance(), exitStatus)
      ensures end == None ==> history == old(history) + Granting(grants > continues)
      ensures StatusFits(end, old(exitStatus))
    {
      grants, end := continues, None;
      if turn >= maxTurns || toolCalls >= ToolBudget(maxToolCalls) {
        var granted, raised := TryContinue(continues, r.choice);
        if raised.Some? { return grants, Some(Raised(Faulted(raised.value))); }
        if granted.None? { return grants, Some(Exhausted); }
        OneGrantLess(Slice(), GrantLimit() - continues);
        grants := granted.value;
      }
    }

    predicate CutShort(reply: Reply, cutoffs: nat) {
      reply.cutoff && cutoffs < LENGTH_CONTINUE_CAP
    }

    /** The final reply is not accepted. */
    predicate Nudged(r: Round, nudges: nat) {
      nudges < FINISH_NUDGE_CAP && r.nudge.Done? && r.nudge.value.Some? && r.nudge.value.value != ""
    }

    /** What being sent back to work costs: a slice more when the turns are used up. */
    ghost predicate Sends(r: Round, turn: int, continues: nat, before: Budget,
                          grants: nat, end: Option<Outcome>, after: Budget, status: Status) {
      var offer := Offered(continues, r.choice);
      if turn < before.turns then end == None && grants == continues && after == before
      else if offer.Raises? then end == Some(Raised(Faulted(offer.fault)))
      else if offer == Done(Continue) then end == None && grants == continues + 1 && after == WithSlice(before)
      else end == Some(Exhausted) && status == (if offer == Done(Stop) then Stopped else MaxTurns)
    }

    /** Where a reply without tool calls leads: it is continued, accepted, or the agent is sent back. */
    ghost predicate TextRoundGoes(r: Round, m: Reply, turn: int, continues: nat, cutoffs: nat, nudges: nat, before: Budget,
                                  grants: nat, end: Option<Outcome>, after: Budget, status: Status) {
      if CutShort(m, cutoffs) then end == None && grants == continues && after == before
      else if Nudged(r, nudges) then Sends(r, turn + 1, continues, before, grants, end, after, status)
      else end == Some(if nudges < FINISH_NUDGE_CAP && r.nudge.Raises? then Raised(Faulted(r.nudge.fault)) else Answered)
    }

    /** The rest of a round after a reply without tool calls. */
    method TextPath(r: Round, reply: Reply, turn: int, continues: nat, cutoffs: nat, nudges: nat, ghost base: seq<Message>, ghost start: nat)
      returns (next: int, grants: nat, cuts: nat, told: nat, end: Option<Outcome>)
      requires Paired(history) && Within(turn, continues, cutoffs) && turn < maxTurns && Intact(base, start)
      modifies `history, `maxTurns, `maxToolCalls, `exitStatus
      ensures Intact(base, start) && Paired(history)
      ensures StatusFits(end, old(exitStatus))
      ensures end == None ==> Within(next, grants, cuts) && Fuel(next, grants, cuts) < old(Fuel(turn, continues, cutoffs))
      ensures end != Some(Raised(PairingBroken))
      ensures var said := old(history) + [AssistantMessage(reply.text)];
              && (end == Some(Answered) ==>
                    && history == said && !(reply.cutoff && cutoffs < LENGTH_CONTINUE_CAP)
                    && (nudges >= FINISH_NUDGE_CAP || r.nudge == Done(None) || r.nudge == Done(Some(""))))
              && (end == None ==>
                    if reply.cutoff && cutoffs < LENGTH_CONTINUE_CAP
                    then history == said + [UserMessage(OUTPUT_CUTOFF_CONTINUE)] && (next, cuts, told) == (turn, cutoffs + 1, nudges)
                    else
                      && (next, cuts, told) == (turn + 1, cutoffs, nudges + 1) && told <= FINISH_NUDGE_CAP
                      && r.nudge.Done? && r.nudge.value.Some? && r.nudge.value.value != ""
                      && history == said + (if grants > continues then [UserMessage(CONTINUE_GRANT)] else []) + [UserMessage(r.nudge.value.value)])
      ensures TextRoundGoes(r, reply, turn, continues, cutoffs, nudges, old(Allowance()), grants, end, Allowance(), exitStatus)
    {
      next, grants, cuts, told, end := turn, continues, cutoffs, nudges, None;
      Say(AssistantMessage(reply.text));
      if reply.cutoff && cutoffs < LENGTH_CONTINUE_CAP {
        cuts := cutoffs + 1;
        Say(UserMessage(OUTPUT_CUTOFF_CONTINUE));
        return;
      }
      next := turn + 1;
      if nudges >= FINISH_NUDGE_CAP { return next, grants, cuts, told, Some(Answered); }
      if r.nudge.Raises? { return next, grants, cuts, told, Some(Raised(Faulted(r.nudge.fault))); }
      if r.nudge.value.None? || r.nudge.value.value == "" { return next, grants, cuts, told, Some(Answered); }
      grants, end := Nudge(r, r.nudge.value.value, next, continues, cutoffs, base, start);
      told := nudges + 1;
    }

    /** Sends the agent back to work, on a new slice when its turns are used up. */
    method Nudge(r: Round, text: string, turn: int, continues: nat, cutoffs: nat, ghost base: seq<Message>, ghost start: nat)
      returns (grants: nat, end: Option<Outcome>)
      requires Paired(history) && Within(turn, continues, cutoffs) && Intact(base, start)
      modifies `history, `maxTurns, `maxToolCalls, `exitStatus
      ensures Intact(base, start) && Paired(history)
      ensures StatusFits(end, old(exitStatus))
      ensures end == None ==> Within(turn, grants, cutoffs) && Fuel(turn, grants, cutoffs) == old(Fuel(turn, continues, cutoffs))
      ensures end == None ==>
                && continues <= grants <= continues + 1 && (grants > continues <==> turn >= old(maxTurns))
                && history == old(history) + (if grants > continues then [UserMessage(CONTINUE_GRANT)] else []) + [UserMessage(text)]
      ensures end != Some(Raised(PairingBroken)) && end != Some(Answered)
      ensures Sends(r, turn, continues, old(Allowance()), grants, end, Allowance(), exitStatus)
    {
      grants, end := continues, None;
      if turn >= maxTurns {
        var granted, raised := TryContinue(continues, r.choice);
        if raised.Some? { return grants, Some(Raised(Faulted(raised.value))); }
        if granted.None? { return grants, Some(Exhausted); }
        OneGrantLess(Slice(), GrantLimit() - continues);
        grants := granted.value;
      }
      Say(UserMessage(text));
    }

    ghost function Here(p: Progress): Point
      reads `maxTurns, `maxToolCalls, `extendedBy, `toolCalls
    {
      Point(p, Allowance(), toolCalls)
    }

    /** The reminder is due two turns before the ceiling, once for each ceiling. */
    predicate CloserDue(ceiling: int, turn: int, ceilings: set<int>) {
      ceiling >= 3 && turn == ceiling - 2 && ceiling !in ceilings
    }

    function Reminding(ceiling: int, p: Progress): seq<Message> {
      if CloserDue(ceiling, p.turn, p.ceilings) then [UserMessage(CLOSER_MESSAGE)] else []
    }

    function Reminded(ceiling: int, p: Progress): Progress {
      if CloserDue(ceiling, p.turn, p.ceilings) then p.(ceilings := p.ceilings + {ceiling}) else p
    }

    /** What a reply leads to, from the counters `p` to `next`. */
    ghost predicate Goes(r: Round, m: Reply, p: Progress, calls: nat, before: Budget,
                         next: Progress, end: Option<Outcome>, callsAfter: nat, after: Budget, status: Status) {
      if m.calls != [] then
        && ToolRoundGoes(r, m, p.turn, p.continues, calls, before, next.continues, end, callsAfter, after, status)
        && (end == None ==> next == p.(turn := p.turn + 1, continues := next.continues))
      else
        && TextRoundGoes(r, m, p.turn, p.continues, p.cutoffs, p.nudges, before, next.continues, end, after, status)
        && callsAfter == calls
        && (end == None ==>
              next == if CutShort(m, p.cutoffs) then p.(cutoffs := p.cutoffs + 1)
                      else p.(turn := p.turn + 1, nudges := p.nudges + 1, continues := next.continues))
    }

    /** A round after which the run stands where the entry says. */
    ghost predicate Follows(r: Round, retried: bool, e: Entry) {
      && Answers(r, retried, e.reply)
      && Goes(r, e.reply, Reminded(e.before.budget.turns, e.before.p), e.before.calls, e.before.budget,
              e.after.p, None, e.after.calls, e.after.budget, Ok)
    }

    /** A round with which the run ends. */
    ghost predicate Ends(r: Round, retried: bool, reply: Option<Reply>, a: Point, outcome: Outcome, status: Status) {
      match reply
      case None => outcome.Raised? && outcome.why.Faulted? && NoReply(r, retried, outcome.why.fault)
      case Some(m) =>
        && Answers(r, retried, m)
        && Goes(r, m, a.p, a.calls, a.budget, a.p, Some(outcome), a.calls + (if m.calls != [] then m.counted else 0), a.budget, status)
    }

    /** Once the run is over only the outcome and the status matter. */
    lemma {:induction false} EndIsAll(r: Round, m: Reply, told: Progress, p: Progress, calls: nat, before: Budget,
                                      next: Progress, outcome: Outcome, callsAfter: nat, after: Budget, status: Status)
      requires Goes(r, m, told, calls, before, next, Some(outcome), callsAfter, after, status)
      requires told == p.(ceilings := told.ceilings)
      ensures Goes(r, m, p, calls, before, p, Some(outcome), calls + (if m.calls != [] then m.counted else 0), before, status)
    {
    }

    /** While it goes on the status does not. */
    lemma {:induction false} StatusIsFree(r: Round, m: Reply, p: Progress, calls: nat, before: Budget,
                                          next: Progress, callsAfter: nat, after: Budget, status: Status)
      requires Goes(r, m, p, calls, before, next, None, callsAfter, after, status) && p.turn < before.turns
      ensures Goes(r, m, p, calls, before, next, None, callsAfter, after, Ok) && next.turn < after.turns
    {
    }

    /** What is said in a round without a compaction. */
    function RoundSays(r: Round, m: Reply, h: seq<Message>, p: Progress, ceiling: int, granted: bool): seq<Message> {
      if m.calls != [] then
        Pruned(h + ToolRound(m, |m.calls|), SCREENSHOT_KEEP) + Heard(p.turn + 1, ceiling, r.verdict) + Granting(granted)
      else if CutShort(m, p.cutoffs) then h + [AssistantMessage(m.text)] + [UserMessage(OUTPUT_CUTOFF_CONTINUE)]
      else if Nudged(r, p.nudges) then h + [AssistantMessage(m.text)] + Granting(granted) + [UserMessage(r.nudge.value.value)]
      else h + [AssistantMessage(m.text)]
    }

    /** What the reply of a round leads to. */
    method React(r: Round, m: Reply, p: Progress, ghost base: seq<Message>, ghost start: nat)
      returns (next: Progress, end: Option<Outcome>)
      requires Paired(history) && Intact(base, start) && Within(p.turn, p.continues, p.cutoffs) && p.turn < maxTurns
      modifies `history, `toolCalls, `compactions, `maxTurns, `maxToolCalls, `extendedBy, `exitStatus
      ensures Intact(base, start) && compactions >= old(compactions)
      ensures end == None ==> Within(next.turn, next.continues, next.cutoffs)
                              && Fuel(next.turn, next.continues, next.cutoffs) < old(Fuel(p.turn, p.continues, p.cutoffs))
      ensures end.None? || !end.value.Raised? ==> Paired(history)
      ensures end.Some? && end.value.Raised? ==> Torn(history)
      ensures end == Some(Raised(PairingBroken)) ==> !GoodIds(m)
      ensures Fires(r.toolFault, m) ==>
                && end == Some(Raised(Faulted(r.toolFault.value.1)))
                && history == old(history) + RoundSoFar(m, r.toolFault.value.0)
      ensures StatusFits(end, old(exitStatus))
      ensures Goes(r, m, p, old(toolCalls), old(Allowance()), next, end, toolCalls, Allowance(), exitStatus)
      ensures end == None && compactions == old(compactions) ==>
                history == RoundSays(r, m, old(history), p, old(maxTurns), next.continues > p.continues)
    {
      next := p;
      if m.calls != [] {
        var turn, continues;
        turn, continues, end := ToolPath(r, m, p.turn, p.continues, p.cutoffs, base, start);
        next := next.(turn := turn, continues := continues);
      } else {
        var turn, continues, cutoffs, nudges;
        turn, continues, cutoffs, nudges, end := TextPath(r, m, p.turn, p.continues, p.cutoffs, p.nudges, base, start);
        next := next.(turn := turn, continues := continues, cutoffs := cutoffs, nudges := nudges);
        PairedIsTorn(history);
      }
    }

    /** The closing reminder and the model call. */
    method Ask(r: Round, p: Progress, ghost base: seq<Message>, ghost start: nat)
      returns (asked: Progress, reply: Option<Reply>, fault: Fault)
      requires Paired(history) && Intact(base, start)
      modifies `history, `compactions, `modelCalls, `contextBudget, `overflowRetried
      ensures Paired(history) && Intact(base, start) && compactions >= old(compactions)
      ensures asked == Reminded(maxTurns, p)
      ensures compactions == old(compactions) || r.first.Answer? ==>
                history == old(history) + Reminding(maxTurns, p)
      ensures overflowRetried == (old(overflowRetried) || r.first.Overflows?)
      ensures modelCalls <= old(modelCalls) + 1 + (if overflowRetried && !old(overflowRetried) then 1 else 0)
      ensures match reply
              case None => NoReply(r, old(overflowRetried), fault)
              case Some(m) => Answers(r, old(overflowRetried), m)
    {
      var told := MaybeInjectCloser(p.turn, p.ceilings);
      asked := p.(ceilings := told);
      assert old(history) + [] == old(history);
      reply, fault := Complete(r);
    }

    /** One round: the closing reminder, the model call, and what its reply leads to. */
    method OneRound(r: Round, p: Progress, ghost base: seq<Message>, ghost start: nat)
      returns (next: Progress, end: Option<Outcome>, ghost reply: Option<Reply>)
      requires Paired(history) && Intact(base, start) && Within(p.turn, p.continues, p.cutoffs) && p.turn < maxTurns
      modifies this
      ensures Intact(base, start)
      ensures modelCalls <= old(modelCalls) + 1 + (if overflowRetried && !old(overflowRetried) then 1 else 0)
      ensures old(overflowRetried) ==> overflowRetried
      ensures end == None ==> Within(next.turn, next.continues, next.cutoffs)
                              && Fuel(next.turn, next.continues, next.cutoffs) < old(Fuel(p.turn, p.continues, p.cutoffs))
      ensures end.None? || !end.value.Raised? ==> Paired(history)
      ensures end == Some(Raised(PairingBroken)) ==> !GoodRound(r)
      ensures end.Some? && end.value.Raised? ==> Torn(history)
      ensures p.turn == 0 && FirstToolRaises(r) ==>
                && end == Some(Raised(Faulted(r.toolFault.value.1)))
                && history == old(history) + RoundSoFar(r.first.reply, r.toolFault.value.0)
      ensures StatusFits(end, old(exitStatus))
      ensures overflowRetried == (old(overflowRetried) || r.first.Overflows?)
      ensures end == None ==> next.turn < maxTurns && reply.Some?
      ensures end.Some? || Follows(r, old(overflowRetried), Entry(old(Here(p)), reply.value, Here(next)))
      ensures end.None? || Ends(r, old(overflowRetried), reply, old(Here(p)), end.value, exitStatus)
      ensures end == None && compactions == old(compactions) ==>
                history == RoundSays(r, reply.value, old(history) + Reminding(old(maxTurns), p), Reminded(old(maxTurns), p),
                                     old(maxTurns), next.continues > p.continues)
    {
      ghost var from := Here(p);
      var asked, answer, fault := Ask(r, p, base, start);
      reply := answer;
      if answer.None? {
        PairedIsTorn(history);
        return asked, Some(Raised(Faulted(fault))), None;
      }
      next, end := React(r, answer.value, asked, base, start);
      if end.Some? {
        EndIsAll(r, answer.value, asked, p, from.calls, from.budget, next, end.value, toolCalls, Allowance(), exitStatus);
      } else {
        StatusIsFree(r, answer.value, asked, from.calls, from.budget, next, toolCalls, Allowance(), exitStatus);
      }
    }

    /** If a tool of the first reply raises, that ends the run, with the round left open. */
    predicate StopsAtFirstTool(r: Round, outcome: Outcome, before: seq<Message>, after: seq<Message>) {
      FirstToolRaises(r) ==>
        && outcome == Raised(Faulted(r.toolFault.value.1))
        && after == before + RoundSoFar(r.first.reply, r.toolFault.value.0)
    }

    /** Whether the one overflow retry is spent before round `k`. */
    ghost predicate RetriedBy(rounds: nat -> Round, retried: bool, k: nat) {
      retried || exists j: nat :: j < k && rounds(j).first.Overflows?
    }

    ghost function Latest(from: Point, trace: seq<Entry>): Point {
      if trace == [] then from else trace[|trace| - 1].after
    }

    /** Every entry is a round that goes on where the one before it stopped. */
    ghost predicate Traces(rounds: nat -> Round, retried: bool, from: Point, trace: seq<Entry>) {
      trace == [] ||
      var front, e, k := trace[..|trace| - 1], trace[|trace| - 1], |trace| - 1;
      && Traces(rounds, retried, from, front)
      && e.before == Latest(from, front) && Follows(rounds(k), RetriedBy(rounds, retried, k), e)
    }

    /** The rounds of a whole run: those of the trace, and one with which it ends, unless it had no turn. */
    ghost predicate Ran(rounds: nat -> Round, retried: bool, from: Point, trace: seq<Entry>, last: Option<Reply>,
                        count: nat, outcome: Outcome, status: Status) {
      && Traces(rounds, retried, from, trace)
      && if count == 0 then from.budget.turns <= 0 && trace == [] && outcome == Exhausted && status == MaxTurns
         else
           && |trace| == count - 1
           && Ends(rounds(count - 1), RetriedBy(rounds, retried, count - 1), last, Latest(from, trace), outcome, status)
    }

    /** A tool round counts its calls, and one that used up the turns or the tool calls is followed by
        another round only on a grant. */
    ghost predicate ToolBudgetKept(trace: seq<Entry>) {
      forall e | e in trace && e.reply.calls != [] ::
        && e.after.calls == e.before.calls + e.reply.counted
        && e.before.p.continues <= e.after.p.continues <= e.before.p.continues + 1
        && (e.after.p.continues == e.before.p.continues ==>
              e.after.p.turn < e.after.budget.turns && e.after.calls < e.after.budget.tools)
        && (e.after.p.continues > e.before.p.continues ==>
              e.after.p.turn >= e.after.budget.turns - Slice() || e.after.calls >= e.after.budget.tools - 2 * Slice())
    }

    lemma {:induction false} RetriedNext(rounds: nat -> Round, retried: bool, k: nat)
      ensures RetriedBy(rounds, retried, k + 1) <==> RetriedBy(rounds, retried, k) || rounds(k).first.Overflows?
    {
    }

    lemma {:induction false} TracesKeepToolBudget(rounds: nat -> Round, retried: bool, from: Point, trace: seq<Entry>)
      requires Traces(rounds, retried, from, trace)
      ensures ToolBudgetKept(trace)
    {
      if trace != [] {
        var front := trace[..|trace| - 1];
        TracesKeepToolBudget(rounds, retried, from, front);
        assert trace == front + [trace[|trace| - 1]];
      }
    }

    lemma {:induction false} TraceGrows(rounds: nat -> Round, retried: bool, from: Point, trace: seq<Entry>, e: Entry)
      requires Traces(rounds, retried, from, trace) && e.before == Latest(from, trace)
      requires Follows(rounds(|trace|), RetriedBy(rounds, retried, |trace|), e)
      ensures Traces(rounds, retried, from, trace + [e])
    {
      assert (trace + [e])[..|trace|] == trace;
    }

    ghost function Start(): Point
      reads this
    {
      Point(Progress(0, 0, 0, 0, {}), Budget(maxTurns, ToolBudget(maxToolCalls), 0), 0)
    }

    /** The `while` loop of the run. */
    method Loop(rounds: nat -> Round, ghost base: seq<Message>, ghost start: nat, ghost from: Point)
      returns (outcome: Outcome, ghost count: nat, ghost trace: seq<Entry>, ghost last: Option<Reply>)
      requires Paired(history) && Intact(base, start) && extendedBy == 0 && exitStatus == Ok && toolCalls == 0 && from == Start()
      modifies this
      ensures Intact(base, start)
      ensures count <= RoundLimit(old(maxTurns))
      ensures modelCalls <= old(modelCalls) + count + (if overflowRetried && !old(overflowRetried) then 1 else 0)
      ensures old(overflowRetried) ==> overflowRetried
      ensures !outcome.Raised? ==> Paired(history) && (outcome.Exhausted? <==> exitStatus != Ok)
      ensures outcome.Raised? ==> Torn(history)
      ensures 0 < old(maxTurns) ==> StopsAtFirstTool(rounds(0), outcome, old(history), history)
      ensures outcome == Raised(PairingBroken) ==> exists n :: !GoodRound(rounds(n))
      ensures Ran(rounds, old(overflowRetried), from, trace, last, count, outcome, exitStatus)
    {
      var p := Progress(0, 0, 0, 0, {});
      count, trace, last := 0, [], None;
      var n := 0;
      ghost var retried := overflowRetried;
      while p.turn < maxTurns
        invariant n == count && Paired(history) && Intact(base, start) && exitStatus == Ok
        invariant n == 0 ==> p.turn == 0 && history == old(history) && maxTurns == old(maxTurns)
        invariant n > 0 ==> !FirstToolRaises(rounds(0))
        invariant p.turn <= maxTurns ==> Within(p.turn, p.continues, p.cutoffs)
        invariant p.turn > maxTurns ==> count == 0
        invariant |trace| == count && Traces(rounds, retried, from, trace) && Here(p) == Latest(from, trace)
        invariant overflowRetried <==> RetriedBy(rounds, retried, count)
        invariant count > 0 ==> p.turn < maxTurns
        invariant p.turn <= maxTurns ==> count + Fuel(p.turn, p.continues, p.cutoffs) <= RoundLimit(old(maxTurns))
        invariant modelCalls <= old(modelCalls) + count + (if overflowRetried && !old(overflowRetried) then 1 else 0)
        invariant old(overflowRetried) ==> overflowRetried
        decreases Fuel(p.turn, p.continues, p.cutoffs)
      {
        FuelLeft(p.turn, p.continues, p.cutoffs);
        var end: Option<Outcome>;
        ghost var before := Here(p);
        p, end, last := OneRound(rounds(n), p, base, start);
        count, n := count + 1, n + 1;
        if end.Some? {
          if end.value == Raised(PairingBroken) { assert !GoodRound(rounds(n - 1)); }
          return end.value, count, trace, last;
        }
        RetriedNext(rounds, retried, count - 1);
        TraceGrows(rounds, retried, from, trace, Entry(before, last.value, Here(p)));
        trace := trace + [Entry(before, last.value, Here(p))];
        FuelLeft(p.turn, p.continues, p.cutoffs);
      }
      exitStatus := MaxTurns;
      return Exhausted, count, trace, last;
    }

    /** The history the run started with, and after a cancellation the two messages that say so. */
    ghost predicate Restored(base: seq<Message>, why: Why)
      reads `history
    {
      && Paired(history) && KeptIn(base, history)
      && |history| == |base| + (if why == Faulted(Cancelled) then 2 else 0)
    }

    /** The `except` branches of the run. */
    method Recover(marker: nat, task: string, why: Why, ghost base: seq<Message>, ghost start: nat) returns (ghost whole: nat)
      requires Intact(base, start) && marker == |base| && Paired(base) && Torn(history)
      modifies `history
      ensures history == AfterFault(old(history), marker, task, why)
      ensures TornAt(old(history), whole) && (Paired(history) <==> CleanCut(old(history), whole, marker))
      ensures compactions == start ==> Restored(base, why)
    {
      if compactions == start { FaultRestores(base, history, task, why); }
      whole :| TornAt(history, whole);
      FaultPairedIff(history, whole, marker, task, why);
      history := AfterFault(history, marker, task, why);
    }

    /** The body of the `try`: the first compaction and the loop. */
    method Attempt(opening: Compaction, rounds: nat -> Round, ghost base: seq<Message>, ghost start: nat, ghost from: Point)
      returns (outcome: Outcome, ghost count: nat, ghost entry: seq<Message>, ghost trace: seq<Entry>, ghost last: Option<Reply>)
      requires Paired(history) && Intact(base, start) && extendedBy == 0 && exitStatus == Ok && toolCalls == 0 && from == Start()
      modifies this
      ensures Intact(base, start)
      ensures count <= RoundLimit(old(maxTurns))
      ensures modelCalls <= old(modelCalls) + count + (if overflowRetried && !old(overflowRetried) then 1 else 0)
      ensures old(overflowRetried) ==> overflowRetried
      ensures !outcome.Raised? ==> Paired(history) && (outcome.Exhausted? <==> exitStatus != Ok)
      ensures outcome.Raised? ==> Torn(history)
      ensures if opening.wanted && opening.fault.None? && Runs(old(BuildMessages()), opening)
              then CompactionGives(old(BuildMessages()), opening, entry) else entry == old(history)
      ensures || (opening.wanted && opening.fault.Some? && outcome == Raised(Faulted(opening.fault.value)) && history == entry && trace == [])
              || (!(opening.wanted && opening.fault.Some?) && Ran(rounds, old(overflowRetried), from, trace, last, count, outcome, exitStatus))
      ensures ToolBudgetKept(trace)
      ensures opening.fault.None? && 0 < old(maxTurns) ==> StopsAtFirstTool(rounds(0), outcome, entry, history)
      ensures outcome == Raised(PairingBroken) ==> exists n :: !GoodRound(rounds(n))
    {
      var fault := MaybeCompact(false, opening);
      entry := history;
      if fault.Some? {
        PairedIsTorn(history);
        return Raised(Faulted(fault.value)), 0, entry, [], None;
      }
      outcome, count, trace, last := Loop(rounds, base, start, from);
      TracesKeepToolBudget(rounds, old(overflowRetried), from, trace);
    }

    /** The `try` with its handler. */
    method Guarded(task: string, opening: Compaction, rounds: nat -> Round, marker: nat,
                   ghost base: seq<Message>, ghost start: nat, ghost from: Point)
      returns (outcome: Outcome, ghost count: nat, ghost entry: seq<Message>, ghost left: seq<Message>, ghost whole: nat,
               ghost trace: seq<Entry>, ghost last: Option<Reply>)
      requires Paired(history) && Intact(base, start) && extendedBy == 0 && exitStatus == Ok && toolCalls == 0 && from == Start()
      requires marker == |base| && Paired(base)
      modifies this
      ensures count <= RoundLimit(old(maxTurns))
      ensures modelCalls <= old(modelCalls) + count + (if overflowRetried && !old(overflowRetried) then 1 else 0)
      ensures old(overflowRetried) ==> overflowRetried
      ensures !outcome.Raised? ==> Paired(history) && (outcome.Exhausted? <==> exitStatus != Ok)
      ensures outcome.Raised? ==>
                && TornAt(left, whole) && history == AfterFault(left, marker, task, outcome.why)
                && (Paired(history) <==> CleanCut(left, whole, marker))
      ensures if opening.wanted && opening.fault.None? && Runs(old(BuildMessages()), opening)
              then CompactionGives(old(BuildMessages()), opening, entry) else entry == old(history)
      ensures || (opening.wanted && opening.fault.Some? && outcome == Raised(Faulted(opening.fault.value)) && trace == [])
              || (!(opening.wanted && opening.fault.Some?) && Ran(rounds, old(overflowRetried), from, trace, last, count, outcome, exitStatus))
      ensures ToolBudgetKept(trace)
      ensures opening.fault.None? && 0 < old(maxTurns) ==> StopsAtFirstTool(rounds(0), outcome, entry, left)
      ensures outcome.Raised? && compactions == start ==> Restored(base, outcome.why)
      ensures outcome == Raised(PairingBroken) ==> exists n :: !GoodRound(rounds(n))
    {
      outcome, count, entry, trace, last := Attempt(opening, rounds, base, start, from);
      left, whole := history, |history|;
      if outcome.Raised? { whole := Recover(marker, task, outcome.why, base, start); }
    }

    /** The task is said and the counters of a run start again. */
    method Open(task: string)
      requires Paired(history)
      modifies `history, `exitStatus, `extendedBy, `toolCalls
      ensures history == old(history) + [UserMessage(task)] && Paired(history)
      ensures Intact(old(history), compactions)
      ensures exitStatus == Ok && extendedBy == 0 && toolCalls == 0
    {
      KeptWhenSaid(history, UserMessage(task));
      Say(UserMessage(task));
      exitStatus, extendedBy, toolCalls := Ok, 0, 0;
    }

    /**
     One run. It always ends, within the rounds its budget pays for; every request is paired; the budgets
     are put back; and an exception restores the history the run started with unless it was compacted.
     `entry` is the history after the first compaction and `left` the one an exception finds; what is
     left of that one is paired exactly when the cut is clean.
     */
    method Run(task: string, opening: Compaction, rounds: nat -> Round)
      returns (outcome: Outcome, ghost count: nat, ghost entry: seq<Message>, ghost left: seq<Message>, ghost whole: nat,
               ghost trace: seq<Entry>, ghost last: Option<Reply>)
      requires Paired(history)
      modifies this
      ensures count <= RoundLimit(old(maxTurns))
      ensures modelCalls <= old(modelCalls) + count + (if overflowRetried && !old(overflowRetried) then 1 else 0)
      ensures old(overflowRetried) ==> overflowRetried
      ensures maxTurns == old(maxTurns) && maxToolCalls == ToolBudget(old(maxToolCalls))
      ensures !outcome.Raised? ==> Paired(history) && (outcome.Exhausted? <==> exitStatus != Ok)
      ensures outcome.Raised? ==>
                && TornAt(left, whole) && history == AfterFault(left, |old(history)|, task, outcome.why)
                && (Paired(history) <==> CleanCut(left, whole, |old(history)|))
      ensures if opening.wanted && opening.fault.None? && Runs(old(Asked(task)), opening)
              then CompactionGives(old(Asked(task)), opening, entry) else entry == old(history) + [UserMessage(task)]
      ensures || (opening.wanted && opening.fault.Some? && outcome == Raised(Faulted(opening.fault.value)) && trace == [])
              || (!(opening.wanted && opening.fault.Some?)
                  && Ran(rounds, old(overflowRetried), old(Start()), trace, last, count, outcome, exitStatus))
      ensures ToolBudgetKept(trace)
      ensures opening.fault.None? && 0 < old(maxTurns) ==> StopsAtFirstTool(rounds(0), outcome, entry, left)
      ensures outcome.Raised? && compactions == old(compactions) ==> Restored(old(history), outcome.why)
      ensures (forall n :: GoodRound(rounds(n))) ==> outcome != Raised(PairingBroken)
    {
      var marker := |history|;
      ghost var base, start, from := history, compactions, Start();
      Open(task);
      assert BuildMessages() == old(Asked(task));
      var originalTurns, originalTools := maxTurns, ToolBudget(maxToolCalls);
      outcome, count, entry, left, whole, trace, last := Guarded(task, opening, rounds, marker, base, start, from);
      maxTurns, maxToolCalls := originalTurns, originalTools;
    }
  }

  /****** A run that leaves an open round ******/

  const ONE_CALL := Reply("", ["c"], (k: nat) => Absent, 1, false)

  function FailingRound(c: Compaction): Round {
    Round(Answer(ONE_CALL), c, Answer(ONE_CALL), Some((0, Failed)), Step.Raises(Failed), c, Step.Raises(Failed),
          Step.Raises(Failed), Step.Raises(Failed))
  }

  /** Room for nothing: the compaction drops all it may. */
  const NO_ROOM := Compaction(true, Limits((m: Message) => 0, 0, 1.0, 1.0), 0, KEEP_FULL_TOOL_RESULTS, NoModel, NoJudge, None)

  lemma {:induction false} NothingFits(h: seq<Message>)
    ensures OverBudget(h, NO_ROOM.limits) && Runs(h, NO_ROOM)
  {
  }

  lemma {:induction false} TrimsOnly(messages: seq<Message>, limits: Limits, keepFull: int)
    ensures var last := BeforeDropping(messages, limits, keepFull, NoModel);
            Keeps(messages, last) && |last| == |messages|
  {
    var pruned, trimmed := Pruned(messages, SCREENSHOT_KEEP), FirstTrim(messages, keepFull);
    PrunedOnlyContents(messages, SCREENSHOT_KEEP);
    TrimmedOnlyContents(pruned, keepFull);
    TrimmedOnlyContents(trimmed, 0);
    KeepsAround(messages, pruned, trimmed, BeforeDropping(messages, limits, keepFull, NoModel));
  }

  /** Where a task ends the history, the least a compaction can keep is the prompt and the task. */
  lemma {:induction false} TaskIsMinimum(messages: seq<Message>, last: seq<Message>)
    requires |messages| >= 3 && Paired(messages) && messages[0].role.System?
    requires messages[|messages| - 1].role.User?
    requires Keeps(messages, last) && |last| == |messages|
    ensures WellGrouped(last) && Minimum(last) == [messages[0], messages[|messages| - 1]]
  {
    assert HasUser(messages);
    assert LastExchange(messages) == |messages| - 1;
    assert Alike(messages[|messages| - 1], last[|last| - 1]);
    assert LastExchange(last) == |last| - 1;
    assert last[|last| - 1..] == [last[|last| - 1]] && last[..1] == [last[0]];
  }

  lemma {:induction false} NoRoomLeavesMinimum(messages: seq<Message>, out: seq<Message>, info: Info)
    requires var c := NO_ROOM; Compacted(messages, c.limits, c.keepFull, c.summarizer, c.judge, out, info)
    requires WellGrouped(BeforeDropping(messages, NO_ROOM.limits, NO_ROOM.keepFull, NoModel))
    ensures out == Minimum(BeforeDropping(messages, NO_ROOM.limits, NO_ROOM.keepFull, NoModel))
  {
    NothingFits(out);
  }

  lemma {:induction false} TaskAlone(system: Message, task: Message)
    requires !task.role.System?
    ensures Systems([system, task][1..]) + NonSystems([system, task][1..]) == [task]
  {
    assert [system, task][1..] == [task] && [task][1..] == [];
  }

  /** Without room and without a summary only the task is left. */
  lemma {:induction false} OnlyTheTaskIsLeft(messages: seq<Message>, left: seq<Message>)
    requires |messages| >= 3 && Paired(messages) && messages[0].role.System?
    requires messages[|messages| - 1].role.User?
    requires CompactionGives(messages, NO_ROOM, left)
    ensures left == [messages[|messages| - 1]]
  {
    var c := NO_ROOM;
    var out, info :| Compacted(messages, c.limits, c.keepFull, c.summarizer, c.judge, out, info)
                     && out != [] && left == Systems(out[1..]) + NonSystems(out[1..]);
    TrimsOnly(messages, c.limits, c.keepFull);
    TaskIsMinimum(messages, BeforeDropping(messages, c.limits, c.keepFull, NoModel));
    NoRoomLeavesMinimum(messages, out, info);
    TaskAlone(messages[0], messages[|messages| - 1]);
  }

  lemma {:induction false} AskedIsPaired(system: Message, h: seq<Message>, task: Message)
    requires Paired(h) && Plain(system) && Plain(task)
    ensures Paired([system] + h + [task])
  {
    PairedAppend(h, task);
    PairedPlain(system, h + [task]);
    assert [system] + h + [task] == [system] + (h + [task]);
  }

  lemma {:induction false} CallStaysOpen(task: Message, marker: nat)
    requires Plain(task) && marker >= 2
    ensures var left := [task] + ToolRound(ONE_CALL, 0);
            CutAt(left, marker) == left && !Paired(left)
  {
    PairedPlain(task, []);
    assert [task] + [] == [task];
    RoundTears([task], ONE_CALL, 0);
    CutPairedIff([task] + ToolRound(ONE_CALL, 0), 1, marker);
  }

  /** The stale marker at work: whatever paired history of two messages or more the agent has, a
      compaction without room and then a tool that raises leave the call open. */
  method StaleMarkerRun(agent: AgentLoop, task: string) returns (outcome: Outcome)
    requires Paired(agent.history) && |agent.history| >= 2 && agent.maxTurns > 0
    modifies agent
    ensures outcome == Raised(Faulted(Failed)) && !Paired(agent.history)
    ensures agent.history == [UserMessage(task)] + ToolRound(ONE_CALL, 0)
  {
    ghost var marker, messages := |agent.history|, agent.Asked(task);
    AskedIsPaired(messages[0], agent.history, UserMessage(task));
    NothingFits(messages);
    ghost var count, entry, left, whole, trace, last;
    outcome, count, entry, left, whole, trace, last := agent.Run(task, NO_ROOM, n => FailingRound(NO_ROOM));
    OnlyTheTaskIsLeft(messages, entry);
    CallStaysOpen(UserMessage(task), marker);
  }
}
