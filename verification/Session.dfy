/**
 The turn pump of runtime/session.py: one turn at a time, user messages queued behind it and, behind
 those, the reports of finished agents, which are handed over in one batch.
 */
module Sessions {
  import opened Wrappers

  type Text = string

  datatype Turn = ForUser(message: Text) | ForReports(reports: seq<Text>)

  /** `turn` is `_turn_task` while it is not done, `live` the number of turn tasks still running, and
      `log` the turns begun since the session was last closed. */
  datatype State = State(open: bool, turn: Option<Turn>, live: nat, pending: seq<Text>, inbox: seq<Text>, log: seq<Turn>)

  const INITIAL := State(false, None, 0, [], [], [])

  function Begin(s: State, turn: Turn): State {
    s.(turn := Some(turn), live := s.live + 1, log := s.log + [turn])
  }

  function Pump(s: State): State {
    if s.turn.Some? || !s.open then s
    else if s.pending != [] then Begin(s.(pending := s.pending[1..]), ForUser(s.pending[0]))
    else if s.inbox != [] then Begin(s.(inbox := []), ForReports(s.inbox))
    else s
  }

  /** A user message begins a turn, or waits while one is on. */
  function Take(s: State, text: Text): State {
    if s.turn.Some? then s.(pending := s.pending + [text]) else Begin(s, ForUser(text))
  }

  /** The command that submits one is refused without a session. */
  function Submit(s: State, text: Text): State {
    if !s.open then s else Take(s, text)
  }

  /** The report of an agent or of a settled worktree, dropped without a session. */
  function Report(s: State, text: Text): State {
    if !s.open then s else Pump(s.(inbox := s.inbox + [text]))
  }

  /** The `finally` of a turn, however the turn ended. */
  function TurnOver(s: State): State {
    if s.turn.None? || s.live == 0 then s else Pump(s.(turn := None, live := s.live - 1))
  }

  /** A turn cancelled before its first step never reaches its `finally`: nothing is pumped. */
  function CancelEarly(s: State): State {
    if s.turn.None? || s.live == 0 then s else s.(turn := None, live := s.live - 1)
  }

  /** Closing asks the turn to stop but does not wait for it. */
  function Close(s: State): State {
    if !s.open then s else s.(open := false, pending := [], inbox := [], log := [])
  }

  /** The idle flag clients wait for. */
  predicate Idle(s: State, children: nat, settlements: nat, prompt: bool) {
    !(s.turn.Some? || children > 0 || settlements > 0 || |s.pending| + |s.inbox| > 0 || prompt)
  }

  class Session {
    var open: bool
    var turn: Option<Turn>
    ghost var live: nat
    var pending: seq<Text>
    var inbox: seq<Text>
    ghost var log: seq<Turn>

    ghost function Now(): State
      reads this
    {
      State(open, turn, live, pending, inbox, log)
    }

    constructor ()
      ensures Now() == INITIAL
    {
      open, turn, live, pending, inbox, log := false, None, 0, [], [], [];
    }

    method StartSession()
      modifies this
      ensures Now() == old(Now()).(open := true)
    {
      open := true;
    }

    method SubmitUserMessage(text: Text)
      modifies this
      ensures Now() == Submit(old(Now()), text)
    {
      if !open { return; }
      StartTurn(text);
    }

    method StartTurn(text: Text)
      modifies this
      ensures Now() == Take(old(Now()), text)
    {
      if turn.Some? {
        pending := pending + [text];
        return;
      }
      BeginTurn(ForUser(text));
    }

    method BeginTurn(next: Turn)
      modifies this
      ensures Now() == Begin(old(Now()), next)
    {
      turn := Some(next);
      live, log := live + 1, log + [next];
    }

    method MaybePump()
      modifies this
      ensures Now() == Pump(old(Now()))
    {
      if turn.Some? || !open { return; }
      if pending != [] {
        var text := pending[0];
        pending := pending[1..];
        BeginTurn(ForUser(text));
      } else if inbox != [] {
        var reports := inbox;
        inbox := [];
        BeginTurn(ForReports(reports));
      }
    }

    method OnAgentResult(report: Text)
      modifies this
      ensures Now() == Report(old(Now()), report)
    {
      if !open { return; }
      inbox := inbox + [report];
      MaybePump();
    }

    method FinishTurn()
      requires turn.Some? && live > 0
      modifies this
      ensures Now() == TurnOver(old(Now()))
    {
      turn := None;
      live := live - 1;
      MaybePump();
    }

    method CloseSession() returns (closed: bool)
      modifies this
      ensures closed == old(open) && Now() == Close(old(Now()))
    {
      if !open { return false; }
      open := false;
      pending, inbox, log := [], [], [];
      return true;
    }

    method RunState(children: nat, settlements: nat, prompt: bool) returns (idle: bool, queued: nat)
      ensures idle == Idle(Now(), children, settlements, prompt) && queued == |pending| + |inbox|
      ensures idle <==> turn == None && pending == [] && inbox == [] && children == 0 && settlements == 0 && !prompt
    {
      queued := |pending| + |inbox|;
      idle := !(turn.Some? || children > 0 || settlements > 0 || queued > 0 || prompt);
    }
  }

  /****** Runs ******/

  /** An early cancellation reaches a turn before its first step; it is allowed here for any turn. */
  datatype Event = Opened | Submitted(text: Text) | Reported(text: Text) | TurnEnded | TurnCancelledEarly | Closed

  function Next(s: State, e: Event): State {
    match e
    case Opened => s.(open := true)
    case Submitted(text) => Submit(s, text)
    case Reported(text) => Report(s, text)
    case TurnEnded => TurnOver(s)
    case TurnCancelledEarly => CancelEarly(s)
    case Closed => Close(s)
  }

  function Reached(events: seq<Event>): State {
    if events == [] then INITIAL else Next(Reached(events[..|events| - 1]), events[|events| - 1])
  }

  /** What one step adds to the user messages taken on; closing the session forgets them. */
  function AcceptedAfter(s: State, e: Event, before: seq<Text>): seq<Text> {
    if e.Closed? && s.open then []
    else if e.Submitted? && s.open then before + [e.text]
    else before
  }

  function CollectedAfter(s: State, e: Event, before: seq<Text>): seq<Text> {
    if e.Closed? && s.open then []
    else if e.Reported? && s.open then before + [e.text]
    else before
  }

  /** The user messages taken on since the session was last closed. */
  function Accepted(events: seq<Event>): seq<Text> {
    if events == [] then []
    else AcceptedAfter(Reached(events[..|events| - 1]), events[|events| - 1], Accepted(events[..|events| - 1]))
  }

  function Collected(events: seq<Event>): seq<Text> {
    if events == [] then []
    else CollectedAfter(Reached(events[..|events| - 1]), events[|events| - 1], Collected(events[..|events| - 1]))
  }

  function UserTurns(log: seq<Turn>): seq<Text> {
    if log == [] then []
    else UserTurns(log[..|log| - 1]) + (if log[|log| - 1].ForUser? then [log[|log| - 1].message] else [])
  }

  /** All batches of reports, one after the other. */
  function ReportTurns(log: seq<Turn>): seq<Text> {
    if log == [] then []
    else ReportTurns(log[..|log| - 1]) + (if log[|log| - 1].ForReports? then log[|log| - 1].reports else [])
  }

  ghost predicate OneTurn(s: State) {
    s.live == if s.turn.Some? then 1 else 0
  }

  predicate Queued(s: State) {
    s.pending != [] || s.inbox != []
  }

  /** Only a running turn of an open session holds anything back. */
  ghost predicate WorkConserving(s: State) {
    Queued(s) ==> s.turn.Some? && s.open
  }

  /** No turn runs and nothing will pump the queue: an early cancellation met it, and since then no
      message, report or closing has come. */
  predicate Stranded(events: seq<Event>) {
    if events == [] then false
    else
      var front, e := events[..|events| - 1], events[|events| - 1];
      var s := Reached(front);
      match e
      case TurnCancelledEarly => Stranded(front) || (s.turn.Some? && Queued(s))
      case Submitted(_) => Stranded(front) && !s.open
      case Reported(_) => Stranded(front) && !s.open
      case Closed => Stranded(front) && !s.open
      case _ => Stranded(front)
  }

  predicate OvertakenAfter(s: State, e: Event, before: bool) {
    match e
    case Submitted(_) => before || (s.open && s.turn.None? && s.pending != [])
    case Closed => before && !s.open
    case _ => before
  }

  /** Since the session was last closed, a message has overtaken others that an early cancellation had
      left waiting. */
  predicate Overtaken(events: seq<Event>) {
    events != []
    && OvertakenAfter(Reached(events[..|events| - 1]), events[|events| - 1], Overtaken(events[..|events| - 1]))
  }

  /** Nothing is lost or doubled, and reports keep their order. */
  ghost predicate Delivered(s: State, accepted: seq<Text>, collected: seq<Text>) {
    && multiset(UserTurns(s.log)) + multiset(s.pending) == multiset(accepted)
    && ReportTurns(s.log) + s.inbox == collected
    && (forall k | 0 <= k < |s.log| :: s.log[k].ForReports? ==> s.log[k].reports != [])
  }

  /** The order in which the messages taken on begin, as far as it is settled. */
  function Lineup(s: State): seq<Text> {
    UserTurns(s.log) + s.pending
  }

  ghost predicate InOrder(s: State, accepted: seq<Text>) {
    Lineup(s) == accepted
  }

  lemma {:induction false} LogLast(log: seq<Turn>, turn: Turn)
    ensures UserTurns(log + [turn]) == UserTurns(log) + (if turn.ForUser? then [turn.message] else [])
    ensures ReportTurns(log + [turn]) == ReportTurns(log) + (if turn.ForReports? then turn.reports else [])
  {
    assert (log + [turn])[..|log|] == log;
  }

  lemma {:induction false} NextCounts(begun: seq<Text>, text: Text, rest: seq<Text>)
    ensures begun + [text] + rest == begun + ([text] + rest)
    ensures multiset(begun + [text]) + multiset(rest) == multiset(begun) + multiset([text] + rest)
  {
    assert multiset([text] + rest) == multiset([text]) + multiset(rest);
  }

  lemma {:induction false} LastCounts(begun: seq<Text>, text: Text, pending: seq<Text>, accepted: seq<Text>)
    requires multiset(begun) + multiset(pending) == multiset(accepted)
    ensures multiset(begun) + multiset(pending + [text]) == multiset(accepted + [text])
    ensures multiset(begun + [text]) + multiset(pending) == multiset(accepted + [text])
    ensures begun + pending == accepted ==> begun + (pending + [text]) == accepted + [text]
    ensures begun + pending == accepted && pending == [] ==> begun + [text] + pending == accepted + [text]
  {
  }

  lemma {:induction false} BeginUser(s: State, text: Text, rest: seq<Text>, accepted: seq<Text>, collected: seq<Text>)
    requires Delivered(s.(pending := [text] + rest), accepted, collected)
    ensures Delivered(Begin(s.(pending := rest), ForUser(text)), accepted, collected)
    ensures InOrder(s.(pending := [text] + rest), accepted) ==> InOrder(Begin(s.(pending := rest), ForUser(text)), accepted)
  {
    LogLast(s.log, ForUser(text));
    NextCounts(UserTurns(s.log), text, rest);
    assert ReportTurns(s.log) + [] == ReportTurns(s.log);
  }

  lemma {:induction false} BeginReports(s: State, accepted: seq<Text>, collected: seq<Text>)
    requires Delivered(s, accepted, collected) && s.inbox != []
    ensures Delivered(Begin(s.(inbox := []), ForReports(s.inbox)), accepted, collected)
    ensures InOrder(s, accepted) ==> InOrder(Begin(s.(inbox := []), ForReports(s.inbox)), accepted)
  {
    LogLast(s.log, ForReports(s.inbox));
    assert UserTurns(s.log) + [] == UserTurns(s.log);
    assert ReportTurns(s.log) + s.inbox + [] == ReportTurns(s.log) + s.inbox;
  }

  /** What every state of a run satisfies, `ordered` while nothing has been overtaken. */
  ghost predicate Safe(s: State, accepted: seq<Text>, collected: seq<Text>, ordered: bool) {
    && OneTurn(s) && (!s.open ==> !Queued(s))
    && Delivered(s, accepted, collected) && (ordered ==> InOrder(s, accepted))
  }

  lemma {:induction false} PumpSafe(s: State, accepted: seq<Text>, collected: seq<Text>, ordered: bool)
    requires Safe(s, accepted, collected, ordered)
    ensures Safe(Pump(s), accepted, collected, ordered) && WorkConserving(Pump(s))
  {
    if s.turn.None? && s.open {
      if s.pending != [] {
        assert [s.pending[0]] + s.pending[1..] == s.pending;
        BeginUser(s, s.pending[0], s.pending[1..], accepted, collected);
      } else if s.inbox != [] {
        BeginReports(s, accepted, collected);
      }
    }
  }

  lemma {:induction false} SubmitSafe(s: State, text: Text, accepted: seq<Text>, collected: seq<Text>, ordered: bool)
    requires Safe(s, accepted, collected, ordered) && s.open
    ensures Safe(Take(s, text), accepted + [text], collected, ordered && (s.turn.Some? || s.pending == []))
    ensures Take(s, text).turn.Some?
  {
    LastCounts(UserTurns(s.log), text, s.pending, accepted);
    if s.turn.None? {
      LogLast(s.log, ForUser(text));
      assert ReportTurns(s.log) + [] == ReportTurns(s.log);
    }
  }

  lemma {:induction false} ReportSafe(s: State, text: Text, accepted: seq<Text>, collected: seq<Text>, ordered: bool)
    requires Safe(s, accepted, collected, ordered) && s.open
    ensures Safe(Report(s, text), accepted, collected + [text], ordered) && WorkConserving(Report(s, text))
  {
    assert ReportTurns(s.log) + (s.inbox + [text]) == ReportTurns(s.log) + s.inbox + [text];
    PumpSafe(s.(inbox := s.inbox + [text]), accepted, collected + [text], ordered);
  }

  /**
   Every run: at most one turn task is live; every user message begins exactly once, in order unless one
   has overtaken others after an early cancellation; every report is in exactly one batch; and a session
   that is open and has no turn has both queues empty exactly unless an early cancellation stranded them.
   */
  lemma {:induction false} EveryRunIsSafe(events: seq<Event>)
    ensures var s := Reached(events);
            && OneTurn(s) && Delivered(s, Accepted(events), Collected(events))
            && (!Overtaken(events) ==> InOrder(s, Accepted(events)))
            && (WorkConserving(s) <==> !Stranded(events))
            && (!s.open ==> !Queued(s))
  {
    RunIsSafe(events);
    ConservedUnlessStranded(events);
  }

  lemma {:induction false} RunIsSafe(events: seq<Event>)
    ensures Safe(Reached(events), Accepted(events), Collected(events), !Overtaken(events))
  {
    if events != [] {
      var front := events[..|events| - 1];
      RunIsSafe(front);
      StepIsSafe(Reached(front), events[|events| - 1], Accepted(front), Collected(front), Overtaken(front));
    }
  }

  /** Steps that touch neither the queues nor the log. */
  lemma {:induction false} SameWorkSafe(s: State, t: State, accepted: seq<Text>, collected: seq<Text>, ordered: bool)
    requires Safe(s, accepted, collected, ordered)
    requires t.log == s.log && t.pending == s.pending && t.inbox == s.inbox && OneTurn(t) && (t.open || !s.open)
    ensures Safe(t, accepted, collected, ordered)
  {
    assert Delivered(t, accepted, collected) && (ordered ==> InOrder(t, accepted));
  }

  lemma {:induction false} FlagsSafe(s: State, accepted: seq<Text>, collected: seq<Text>, ordered: bool)
    requires Safe(s, accepted, collected, ordered)
    ensures Safe(s.(open := true), accepted, collected, ordered) && Safe(CancelEarly(s), accepted, collected, ordered)
  {
    SameWorkSafe(s, s.(open := true), accepted, collected, ordered);
    SameWorkSafe(s, CancelEarly(s), accepted, collected, ordered);
  }

  lemma {:induction false} CloseSafe(s: State, accepted: seq<Text>, collected: seq<Text>, ordered: bool)
    requires Safe(s, accepted, collected, ordered)
    ensures if s.open then Safe(Close(s), [], [], true) else Close(s) == s
  {
  }

  lemma {:induction false} TurnOverSafe(s: State, accepted: seq<Text>, collected: seq<Text>, ordered: bool)
    requires Safe(s, accepted, collected, ordered)
    ensures Safe(TurnOver(s), accepted, collected, ordered)
  {
    if s.turn.Some? {
      var t := s.(turn := None, live := s.live - 1);
      SameWorkSafe(s, t, accepted, collected, ordered);
      PumpSafe(t, accepted, collected, ordered);
    }
  }

  lemma {:induction false} StepIsSafe(s: State, e: Event, accepted: seq<Text>, collected: seq<Text>, overtaken: bool)
    requires Safe(s, accepted, collected, !overtaken)
    ensures Safe(Next(s, e), AcceptedAfter(s, e, accepted), CollectedAfter(s, e, collected), !OvertakenAfter(s, e, overtaken))
  {
    if e.Submitted? {
      SubmittedSafe(s, e.text, accepted, collected, overtaken);
    } else if e.Reported? {
      ReportedSafe(s, e.text, accepted, collected, !overtaken);
    } else {
      QuietStepSafe(s, e, accepted, collected, overtaken);
    }
  }

  lemma {:induction false} QuietStepSafe(s: State, e: Event, accepted: seq<Text>, collected: seq<Text>, overtaken: bool)
    requires Safe(s, accepted, collected, !overtaken) && !e.Submitted? && !e.Reported?
    ensures Safe(Next(s, e), AcceptedAfter(s, e, accepted), CollectedAfter(s, e, collected), !OvertakenAfter(s, e, overtaken))
  {
    if e.TurnEnded? {
      TurnOverSafe(s, accepted, collected, !overtaken);
    } else if e.Closed? {
      CloseSafe(s, accepted, collected, !overtaken);
    } else {
      FlagsSafe(s, accepted, collected, !overtaken);
    }
  }

  lemma {:induction false} SubmittedSafe(s: State, text: Text, accepted: seq<Text>, collected: seq<Text>, overtaken: bool)
    requires Safe(s, accepted, collected, !overtaken)
    ensures Safe(Submit(s, text), if s.open then accepted + [text] else accepted, collected,
                 !(overtaken || (s.open && s.turn.None? && s.pending != [])))
  {
    if s.open { SubmitSafe(s, text, accepted, collected, !overtaken); }
  }

  lemma {:induction false} ReportedSafe(s: State, text: Text, accepted: seq<Text>, collected: seq<Text>, ordered: bool)
    requires Safe(s, accepted, collected, ordered)
    ensures Safe(Report(s, text), accepted, if s.open then collected + [text] else collected, ordered)
  {
    if s.open { ReportSafe(s, text, accepted, collected, ordered); }
  }

  lemma {:induction false} ConservedUnlessStranded(events: seq<Event>)
    ensures WorkConserving(Reached(events)) <==> !Stranded(events)
  {
    if events != [] {
      var front := events[..|events| - 1];
      RunIsSafe(front);
      ConservedUnlessStranded(front);
      StrandingStep(Reached(front), events[|events| - 1]);
    }
  }

  /** Which steps leave a session with a queue and no turn. */
  lemma {:induction false} StrandingStep(s: State, e: Event)
    requires OneTurn(s) && (!s.open ==> !Queued(s))
    ensures WorkConserving(Next(s, e)) <==>
            match e
            case TurnCancelledEarly => WorkConserving(s) && !(s.turn.Some? && Queued(s))
            case Opened => WorkConserving(s)
            case TurnEnded => WorkConserving(s)
            case _ => WorkConserving(s) || s.open
  {
  }

  lemma {:induction false} PumpKeepsLineup(s: State)
    ensures Lineup(Pump(s)) == Lineup(s)
  {
    if s.turn.None? && s.open {
      if s.pending != [] {
        LogLast(s.log, ForUser(s.pending[0]));
        NextCounts(UserTurns(s.log), s.pending[0], s.pending[1..]);
        assert [s.pending[0]] + s.pending[1..] == s.pending;
      } else if s.inbox != [] {
        LogLast(s.log, ForReports(s.inbox));
        assert UserTurns(s.log) + [] == UserTurns(s.log);
      }
    }
  }

  lemma {:induction false} StaysOutOfOrder(s: State, text: Text, accepted: seq<Text>)
    requires multiset(UserTurns(s.log)) + multiset(s.pending) == multiset(accepted) && text !in accepted
    requires Lineup(s) != accepted || (s.turn.None? && s.pending != [])
    ensures Lineup(Take(s, text)) != accepted + [text]
  {
    var u, p := UserTurns(s.log), s.pending;
    LineupOfTake(s, text);
    LongerDiffer(u + p, accepted, text);
    if s.turn.None? && p != [] { OvertakerIsLast(u, p, text, accepted); }
  }

  lemma {:induction false} LineupOfTake(s: State, text: Text)
    ensures s.turn.Some? || s.pending == [] ==> Lineup(Take(s, text)) == UserTurns(s.log) + s.pending + [text]
    ensures s.turn.None? ==> Lineup(Take(s, text)) == UserTurns(s.log) + [text] + s.pending
  {
    AtTheEnd(UserTurns(s.log), s.pending, text);
    if s.turn.None? { LogLast(s.log, ForUser(text)); }
  }

  lemma {:induction false} AtTheEnd(begun: seq<Text>, pending: seq<Text>, text: Text)
    ensures begun + (pending + [text]) == begun + pending + [text]
    ensures pending == [] ==> begun + [text] + pending == begun + pending + [text]
  {
  }

  lemma {:induction false} LongerDiffer(x: seq<Text>, y: seq<Text>, text: Text)
    ensures x + [text] == y + [text] <==> x == y
  {
    assert (x + [text])[..|x|] == x && (y + [text])[..|y|] == y;
  }

  lemma {:induction false} OvertakerIsLast(begun: seq<Text>, pending: seq<Text>, text: Text, accepted: seq<Text>)
    requires pending != [] && text !in accepted
    requires multiset(begun) + multiset(pending) == multiset(accepted)
    ensures begun + [text] + pending != accepted + [text]
  {
    var last := pending[|pending| - 1];
    assert last in multiset(begun) + multiset(pending);
    assert last in multiset(accepted) && last in accepted;
    var x, y := begun + [text] + pending, accepted + [text];
    assert x[|x| - 1] == last && y[|y| - 1] == text;
  }

  lemma {:induction false} OtherStepsKeepLineup(s: State, e: Event)
    requires e.Submitted? || e.Closed? ==> !s.open
    ensures Lineup(Next(s, e)) == Lineup(s)
  {
    match e
    case Reported(text) => if s.open { PumpKeepsLineup(s.(inbox := s.inbox + [text])); }
    case TurnEnded => if s.turn.Some? && s.live > 0 { PumpKeepsLineup(s.(turn := None, live := s.live - 1)); }
    case _ =>
  }

  predicate Differ(texts: seq<Text>) {
    forall i, j | 0 <= i < j < |texts| :: texts[i] != texts[j]
  }

  lemma {:induction false} LastDiffers(texts: seq<Text>, text: Text)
    requires Differ(texts + [text])
    ensures Differ(texts) && text !in texts
  {
    var all := texts + [text];
    forall i | 0 <= i < |texts| ensures texts[i] != text { assert all[i] == texts[i] && all[|texts|] == text; }
    forall i, j | 0 <= i < j < |texts| ensures texts[i] != texts[j] { assert all[i] == texts[i] && all[j] == texts[j]; }
  }

  /** Messages that differ begin in the order they came if and only if none has overtaken others. */
  lemma {:induction false} InOrderIff(events: seq<Event>)
    requires Differ(Accepted(events))
    ensures Lineup(Reached(events)) == Accepted(events) <==> !Overtaken(events)
  {
    EveryRunIsSafe(events);
    if Overtaken(events) { OvertakenIsOutOfOrder(events); }
  }

  lemma {:induction false} OvertakenIsOutOfOrder(events: seq<Event>)
    requires Differ(Accepted(events)) && Overtaken(events)
    ensures Lineup(Reached(events)) != Accepted(events)
  {
    var front, e := events[..|events| - 1], events[|events| - 1];
    var s := Reached(front);
    if e.Submitted? && s.open {
      EveryRunIsSafe(front);
      LastDiffers(Accepted(front), e.text);
      if Overtaken(front) { OvertakenIsOutOfOrder(front); }
      StaysOutOfOrder(s, e.text, Accepted(front));
    } else {
      OvertakenIsOutOfOrder(front);
      OtherStepsKeepLineup(s, e);
    }
  }

  /** An early cancellation of a turn that has others waiting behind it. */
  predicate Strands(events: seq<Event>, n: nat)
    requires n < |events|
  {
    events[n].TurnCancelledEarly? && Reached(events[..n]).turn.Some? && Queued(Reached(events[..n]))
  }

  lemma {:induction false} StrandedFrom(events: seq<Event>)
    requires Stranded(events)
    ensures exists n | 0 <= n < |events| :: Strands(events, n)
  {
    var last := |events| - 1;
    var front := events[..last];
    if Stranded(front) {
      StrandedFrom(front);
      var n :| 0 <= n < |front| && Strands(front, n);
      assert front[..n] == events[..n];
      assert Strands(events, n);
    } else {
      assert Strands(events, last);
    }
  }

  /** Work is conserved all along a run if and only if no early cancellation met a non-empty queue. */
  lemma {:induction false} WorkConservedIff(events: seq<Event>)
    ensures (forall n | 0 <= n <= |events| :: WorkConserving(Reached(events[..n])))
            <==> !exists n | 0 <= n < |events| :: Strands(events, n)
  {
    if n :| 0 <= n < |events| && Strands(events, n) {
      EveryRunIsSafe(events[..n]);
      assert events[..n + 1][..n] == events[..n];
      assert !WorkConserving(Reached(events[..n + 1]));
    }
    forall n | 0 <= n <= |events| && !WorkConserving(Reached(events[..n]))
      ensures exists k | 0 <= k < |events| :: Strands(events, k)
    {
      EveryRunIsSafe(events[..n]);
      StrandedFrom(events[..n]);
      var k :| 0 <= k < n && Strands(events[..n], k);
      assert events[..n][..k] == events[..k];
      assert Strands(events, k);
    }
  }

  /** A report turn begins only when no user message waits, and it takes every report there is. */
  lemma {:induction false} ReportsWaitForUsers(events: seq<Event>, e: Event)
    requires var t := Next(Reached(events), e);
             t.log != [] && |t.log| > |Reached(events).log| && t.log[|t.log| - 1].ForReports?
    ensures var t := Next(Reached(events), e);
            Reached(events).pending == [] && t.pending == [] && t.inbox == []
  {
    EveryRunIsSafe(events);
  }

  ghost predicate OpenedAt(events: seq<Event>, k: nat) {
    k < |events| && events[k].Opened? && forall j | k < j < |events| :: !events[j].Closed?
  }

  /** The session is open exactly when it has been opened since it was last closed. */
  lemma {:induction false} OpenIff(events: seq<Event>)
    ensures Reached(events).open <==> exists k: nat :: OpenedAt(events, k)
  {
    if events != [] {
      var front, e := events[..|events| - 1], events[|events| - 1];
      OpenIff(front);
      assert events == front + [e];
      forall k: nat | k < |front| ensures OpenedAt(events, k) <==> OpenedAt(front, k) && !e.Closed? {
        assert forall j | k < j < |front| :: events[j] == front[j];
      }
      assert OpenedAt(events, |front|) <==> e.Opened?;
      PumpKeepsOpen(Reached(front), e);
    }
  }

  lemma {:induction false} PumpKeepsOpen(s: State, e: Event)
    ensures Next(s, e).open <==> e.Opened? || (s.open && !e.Closed?)
  {
  }

  /** No step begins more than one turn. A message that begins is the first that waited, or has just come
      in and found no turn; reports begin only when no message waits, and all of them together. */
  lemma {:induction false} WhichTurnBegins(s: State, e: Event)
    ensures var t := Next(s, e);
            || (e.Closed? && s.open) || t.log == s.log
            || (|t.log| == |s.log| + 1 && t.log[..|s.log|] == s.log && t.turn == Some(t.log[|s.log|])
                && match t.log[|s.log|]
                   case ForUser(text) =>
                     if e.Submitted? then text == e.text && s.turn == None && t.pending == s.pending
                     else s.pending == [text] + t.pending && (e.Reported? ==> t.inbox == s.inbox + [e.text])
                                                          && (!e.Reported? ==> t.inbox == s.inbox)
                   case ForReports(reports) =>
                     s.pending == t.pending == [] && t.inbox == []
                     && reports == s.inbox + (if e.Reported? then [e.text] else []))
  {
  }

  /** The idle flag is a true barrier: no turn runs and everything taken on has been begun. The queues,
      whose length the formula adds, decide it only where an early cancellation stranded them. */
  lemma {:induction false} IdleIsABarrier(events: seq<Event>, children: nat, settlements: nat, prompt: bool)
    ensures var s := Reached(events);
            && (!Stranded(events) ==> (Idle(s, children, settlements, prompt) <==> !(s.turn.Some? || children > 0 || settlements > 0 || prompt)))
            && (Idle(s, children, settlements, prompt) ==>
                  && s.live == 0 && multiset(UserTurns(s.log)) == multiset(Accepted(events))
                  && ReportTurns(s.log) == Collected(events)
                  && (!Overtaken(events) ==> UserTurns(s.log) == Accepted(events)))
            && (Idle(s, children, settlements, prompt) ==> Next(s, TurnEnded) == s)
  {
    EveryRunIsSafe(events);
    var s := Reached(events);
    assert UserTurns(s.log) + [] == UserTurns(s.log) && ReportTurns(s.log) + [] == ReportTurns(s.log);
  }

  /** Two messages, an early cancellation, and a third message that overtakes the second. */
  lemma {:induction false} EarlyCancelReorders(a: Text, b: Text, c: Text)
    ensures var stranded := [Opened, Submitted(a), Submitted(b), TurnCancelledEarly];
            && Reached(stranded) == State(true, None, 0, [b], [], [ForUser(a)]) && !WorkConserving(Reached(stranded))
            && Reached(stranded + [Submitted(c)]) == State(true, Some(ForUser(c)), 1, [b], [], [ForUser(a), ForUser(c)])
            && Reached(stranded + [Submitted(c), TurnEnded]).log == [ForUser(a), ForUser(c), ForUser(b)]
            && Accepted(stranded + [Submitted(c), TurnEnded]) == [a, b, c]
  {
    var e1, e2, e3 := [Opened], [Opened, Submitted(a)], [Opened, Submitted(a), Submitted(b)];
    var e4 := [Opened, Submitted(a), Submitted(b), TurnCancelledEarly];
    var e5, e6 := e4 + [Submitted(c)], e4 + [Submitted(c), TurnEnded];
    assert e1[..0] == [] && e2[..1] == e1 && e3[..2] == e2 && e4[..3] == e3 && e5[..4] == e4 && e6[..5] == e5;
    assert Reached(e1) == INITIAL.(open := true);
    assert Reached(e2) == State(true, Some(ForUser(a)), 1, [], [], [ForUser(a)]);
    assert Reached(e3) == State(true, Some(ForUser(a)), 1, [b], [], [ForUser(a)]);
    assert Accepted(e3) == [a, b] by { assert Accepted(e1) == [] && Accepted(e2) == [a]; }
    assert Accepted(e4) == [a, b] && Accepted(e5) == [a, b, c];
  }
}
