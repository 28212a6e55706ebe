/**
 The spawn and verification protocol of agents/orchestrator.py as atomic steps: `spawn` does not await
 once it holds its lock, and each stretch of `_run_child` between two awaits is one step.
 */
module Orchestrators {
  import opened Wrappers

  datatype Profile = Coder | Tester | Reviewer | Ask | Researcher | Debugger

  predicate IsWriter(p: Profile) { p.Coder? || p.Tester? }
  predicate IsVerifier(p: Profile) { p.Tester? || p.Reviewer? }
  predicate IsSurvey(p: Profile) { p.Ask? || p.Researcher? }

  function FirstCap(p: Profile): nat {
    if p.Ask? then 3 else 1
  }

  datatype Status = Finished | Incomplete | MaxTurns | Stopped | Aborted | Failed

  type Id = nat
  type Path = string

  /** Where a child task is suspended. Done is a task that a cancellation ended before it could remove
      its own entry: before its first step, or at one of its last two awaits. */
  datatype Phase =
    | Running
    | Closing(files: set<Path>, verify: bool)
    | Reporting
    | Done

  datatype Child = Child(profile: Profile, phase: Phase)

  /** What the orchestrator is built with: the profiles registered, the spawn budget, and which paths
      are documentation. */
  datatype Setup = Setup(profiles: set<Profile>, budget: int, isDoc: Path -> bool)

  datatype State = State(
    children: map<Id, Child>,
    reserved: map<Id, Profile>,
    issued: nat,
    writerRuns: map<Id, Profile>,
    lastCoder: Option<Id>,
    verifying: map<Id, set<Id>>,
    verifyOwner: map<Id, Id>,
    unverified: map<Id, set<Path>>,
    spawns: map<Profile, int>,
    retry: set<Profile>,
    retryUsed: set<Profile>,
    surveyStarted: bool,
    surveyClosed: bool,
    inboxTurn: bool,
    aborting: bool)

  const INITIAL := State(map[], map[], 0, map[], None, map[], map[], map[], map[], {}, {}, false, false, false, false)

  /****** Queries ******/

  function Live(children: map<Id, Child>): (live: set<Id>)
    ensures live <= children.Keys && forall i | i in children :: i in live <==> children[i].phase != Done
  {
    set i | i in children && !children[i].phase.Done?
  }

  function LiveCount(s: State): nat {
    |Live(s.children)| + |s.reserved|
  }

  predicate CoderIsLive(s: State) {
    (exists i | i in s.children :: !s.children[i].phase.Done? && s.children[i].profile.Coder?)
    || (exists i | i in s.reserved :: s.reserved[i].Coder?)
  }

  predicate IsLive(s: State, id: Id) {
    id in s.children && !s.children[id].phase.Done?
  }

  function SpawnsOf(s: State, p: Profile): int {
    SpawnsIn(s.spawns, p)
  }

  /****** Spawning ******/

  datatype Request = Request(profile: Profile, continueFrom: Option<Id>, verifyOwner: Option<Id>)

  /** How the construction of the child goes: it starts, or raises before or after the run is
      recorded as the last coder. */
  datatype Launch = Starts | FailsToBuild | FailsToStart

  datatype Refusal =
    | UnknownProfile | VerifiersRunning | StillVerifying | CoderRunning | StillRunning
    | NotAWriter | NoSuchWriter | NoCoderToVerify | AlreadySurveyed | BudgetExhausted | LaunchFailed

  datatype Reply = Started(id: Id) | Refused(why: Refusal)

  /** The owner a verifier is filed under: the one given, else the last coder. */
  function OwnerOf(s: State, q: Request): Option<Id> {
    if IsVerifier(q.profile) && q.verifyOwner.None? && q.continueFrom.None? then s.lastCoder else q.verifyOwner
  }

  /** The refusals decided before the survey caps. */
  function Gate(c: Setup, s: State, q: Request): Option<Refusal> {
    if q.profile !in c.profiles then Some(UnknownProfile)
    else if q.verifyOwner.None? && IsVerifier(q.profile) && s.verifying != map[] then Some(VerifiersRunning)
    else if q.continueFrom.Some? && q.continueFrom.value in s.verifying && s.verifying[q.continueFrom.value] != {} then
      Some(StillVerifying)
    else if q.profile.Coder? && s.verifying != map[] then Some(StillVerifying)
    else if q.profile.Coder? && CoderIsLive(s) then Some(CoderRunning)
    else if q.profile.Coder? && q.continueFrom.Some? && IsLive(s, q.continueFrom.value) then Some(StillRunning)
    else if q.continueFrom.Some? && !IsWriter(q.profile) then Some(NotAWriter)
    else if q.continueFrom.Some? && q.continueFrom.value !in s.writerRuns then Some(NoSuchWriter)
    else if q.continueFrom.Some? && IsLive(s, q.continueFrom.value) then Some(StillRunning)
    else if OwnerOf(s, q).Some?
            && (OwnerOf(s, q).value !in s.writerRuns || !s.writerRuns[OwnerOf(s, q).value].Coder?) then Some(NoCoderToVerify)
    else None
  }

  function SurveyCap(s: State, p: Profile): nat {
    if s.inboxTurn then 1 else FirstCap(p)
  }

  predicate SurveyRefused(s: State, p: Profile) {
    IsSurvey(p) && (s.surveyClosed || (SpawnsOf(s, p) >= SurveyCap(s, p) && p !in s.retry))
  }

  /** Going over the cap uses up the one retry, before the budget is even looked at. */
  function TakeRetry(s: State, p: Profile): State {
    if IsSurvey(p) && SpawnsOf(s, p) >= SurveyCap(s, p) then
      s.(retry := s.retry - {p}, retryUsed := s.retryUsed + {p})
    else s
  }

  function AddTo(m: map<Id, set<Id>>, owner: Id, id: Id): map<Id, set<Id>> {
    m[owner := (if owner in m then m[owner] else {}) + {id}]
  }

  function SpawnsIn(spawns: map<Profile, int>, p: Profile): int {
    if p in spawns then spawns[p] else 0
  }

  /** Survey spawns of the current user message; other profiles are not counted. */
  function CountUp(spawns: map<Profile, int>, p: Profile): map<Profile, int> {
    if IsSurvey(p) then spawns[p := SpawnsIn(spawns, p) + 1] else spawns
  }

  function CountDown(spawns: map<Profile, int>, p: Profile): map<Profile, int> {
    if !IsSurvey(p) then spawns
    else if SpawnsIn(spawns, p) - 1 <= 0 then spawns - {p} else spawns[p := SpawnsIn(spawns, p) - 1]
  }

  /** Files a new verifier under its owner, if it has one. */
  function File(verifying: map<Id, set<Id>>, verifyOwner: map<Id, Id>, owner: Option<Id>, id: Id)
    : (map<Id, set<Id>>, map<Id, Id>)
  {
    if owner.None? then (verifying, verifyOwner)
    else (AddTo(verifying, owner.value, id), verifyOwner[id := owner.value])
  }

  function Reserve(s: State, p: Profile, owner: Option<Id>): State {
    var (verifying, verifyOwner) := File(s.verifying, s.verifyOwner, owner, s.issued);
    s.(issued := s.issued + 1, reserved := s.reserved[s.issued := p], spawns := CountUp(s.spawns, p),
       verifying := verifying, verifyOwner := verifyOwner)
  }

  /** The gate opens when the last verifier of an owner is released. */
  function Unfile(verifying: map<Id, set<Id>>, verifyOwner: map<Id, Id>, id: Id): (map<Id, set<Id>>, map<Id, Id>) {
    if id !in verifyOwner then (verifying, verifyOwner)
    else
      var owner := verifyOwner[id];
      if owner !in verifying then (verifying, verifyOwner - {id})
      else
        var left := verifying[owner] - {id};
        (if left != {} then verifying[owner := left] else verifying - {owner}, verifyOwner - {id})
  }

  function Release(s: State, id: Id): State {
    var (verifying, verifyOwner) := Unfile(s.verifying, s.verifyOwner, id);
    s.(verifying := verifying, verifyOwner := verifyOwner)
  }

  function Enter(s: State, id: Id, p: Profile): State {
    s.(reserved := s.reserved - {id},
       children := s.children[id := Child(p, Running)],
       writerRuns := if IsWriter(p) then s.writerRuns[id := p] else s.writerRuns,
       lastCoder := if p.Coder? then Some(id) else s.lastCoder,
       surveyStarted := s.surveyStarted || IsSurvey(p))
  }

  function Unreserve(s: State, id: Id, p: Profile, launch: Launch): State {
    var (verifying, verifyOwner) := Unfile(s.verifying, s.verifyOwner, id);
    s.(reserved := s.reserved - {id}, spawns := CountDown(s.spawns, p),
       verifying := verifying, verifyOwner := verifyOwner,
       lastCoder := if p.Coder? && launch.FailsToStart? then None else s.lastCoder)
  }

  /** The slot is reserved first, and given back when the launch fails. */
  function Place(s: State, p: Profile, owner: Option<Id>, launch: Launch): (State, Reply) {
    var r := Reserve(s, p, owner);
    if launch.Starts? then (Enter(r, s.issued, p), Started(s.issued))
    else (Unreserve(r, s.issued, p, launch), Refused(LaunchFailed))
  }

  function Spawn(c: Setup, s: State, q: Request, launch: Launch): (State, Reply) {
    var p := q.profile;
    if Gate(c, s, q).Some? then (s, Refused(Gate(c, s, q).value))
    else if SurveyRefused(s, p) then (s, Refused(AlreadySurveyed))
    else
      var t := TakeRetry(s, p);
      if LiveCount(t) >= c.budget then (t, Refused(BudgetExhausted))
      else Place(t, p, OwnerOf(s, q), launch)
  }

  /****** A child finishing ******/

  function AllFiles(changes: map<Id, set<Path>>): set<Path> {
    set i, f | i in changes && f in changes[i] :: f
  }

  function Touched(s: State, p: Profile, files: set<Path>): set<Path> {
    if p.Coder? then files + AllFiles(s.unverified) else {}
  }

  /** The ledger entry of a finished coder, and the retry an incomplete survey earns. */
  function RecordRun(s: State, id: Id, p: Profile, status: Status, touched: set<Path>): State {
    s.(unverified := if touched != {} then s.unverified[id := touched] else s.unverified,
       retry := if status.Incomplete? && IsSurvey(p) && p !in s.retryUsed then s.retry + {p} else s.retry)
  }

  /** From the end of `child.finish` to the next await: ledger, retry, release of the gate. */
  function FinishRun(s: State, id: Id, status: Status, files: set<Path>): State {
    if id !in s.children || !s.children[id].phase.Running? then s
    else
      var p := s.children[id].profile;
      var touched := Touched(s, p, files);
      var r := Release(RecordRun(s, id, p, status, touched), id);
      r.(children := s.children[id := Child(p, Closing(touched, status.Finished? && touched != {}))])
  }

  predicate DocsOnly(c: Setup, files: set<Path>) {
    files != {} && forall f | f in files :: c.isDoc(f)
  }

  /** The reviewer, then the tester unless only documentation changed; whether all of them started. */
  function StartVerifiers(c: Setup, s: State, owner: Id, files: set<Path>, reviewer: Launch, tester: Launch): (State, bool) {
    var (s1, r1) := Spawn(c, s, Request(Reviewer, None, Some(owner)), reviewer);
    if DocsOnly(c, files) then (s1, r1.Started?)
    else
      var (s2, r2) := Spawn(c, s1, Request(Tester, None, Some(owner)), tester);
      (s2, r1.Started? && r2.Started?)
  }

  /** The ledger is cleared only when every verifier that is wanted has started. */
  function StartVerification(c: Setup, s: State, owner: Id, files: set<Path>, reviewer: Launch, tester: Launch): (State, bool) {
    var (t, all) := StartVerifiers(c, s, owner, files, reviewer, tester);
    (t.(unverified := if all then map[] else t.unverified[owner := files]), all)
  }

  /** From the closing of the browser page to the merge gate. */
  function AfterClosing(c: Setup, s: State, id: Id, reviewer: Launch, tester: Launch): State {
    if id !in s.children || !s.children[id].phase.Closing? then s
    else
      var Child(p, Closing(files, verify)) := s.children[id];
      var r := if verify && !s.aborting then StartVerification(c, s, id, files, reviewer, tester).0 else s;
      if s.aborting then r.(children := r.children - {id})
      else r.(children := r.children[id := Child(p, Reporting)])
  }

  function AfterReporting(s: State, id: Id): State {
    if id in s.children && s.children[id].phase.Reporting? then s.(children := s.children - {id}) else s
  }

  /** A cancellation that arrives at one of the last two awaits ends the task where it is. */
  function CancelLate(s: State, id: Id): State {
    if id in s.children && (s.children[id].phase.Closing? || s.children[id].phase.Reporting?)
    then s.(children := s.children[id := s.children[id].(phase := Done)]) else s
  }

  /** A task cancelled before its first step never enters its body: nothing it would clean up is. */
  function CancelEarly(s: State, id: Id): State {
    if id in s.children && s.children[id].phase.Running?
    then s.(children := s.children[id := s.children[id].(phase := Done)]) else s
  }

  /****** Turns ******/

  function UserMessage(s: State): State {
    s.(spawns := map[], retry := {}, retryUsed := {}, surveyStarted := false, surveyClosed := false)
  }

  function BeginTurn(s: State, inbox: bool): State {
    s.(inboxTurn := inbox, surveyStarted := false, surveyClosed := false)
  }

  function AfterTools(s: State): State {
    s.(surveyStarted := false, surveyClosed := s.surveyClosed || s.surveyStarted)
  }

  /****** The class ******/

  class Orchestrator {
    const setup: Setup
    var children: map<Id, Child>
    var reserved: map<Id, Profile>
    var issued: nat
    var writerRuns: map<Id, Profile>
    var lastCoder: Option<Id>
    var verifying: map<Id, set<Id>>
    var verifyOwner: map<Id, Id>
    var unverified: map<Id, set<Path>>
    var spawns: map<Profile, int>
    var retry: set<Profile>
    var retryUsed: set<Profile>
    var surveyStarted: bool
    var surveyClosed: bool
    var inboxTurn: bool
    var aborting: bool

    function Now(): State
      reads this
    {
      State(children, reserved, issued, writerRuns, lastCoder, verifying, verifyOwner, unverified,
            spawns, retry, retryUsed, surveyStarted, surveyClosed, inboxTurn, aborting)
    }

    constructor (setup: Setup)
      ensures this.setup == setup && Now() == INITIAL
    {
      this.setup := setup;
      children, reserved, issued, writerRuns, lastCoder := map[], map[], 0, map[], None;
      verifying, verifyOwner, unverified := map[], map[], map[];
      spawns, retry, retryUsed := map[], {}, {};
      surveyStarted, surveyClosed, inboxTurn, aborting := false, false, false, false;
    }

    method SpawnChild(q: Request, launch: Launch) returns (reply: Reply)
      modifies this
      ensures (Now(), reply) == Spawn(setup, old(Now()), q, launch)
    {
      var p := q.profile;
      var refusal := Gate(setup, Now(), q);
      if refusal.Some? { return Refused(refusal.value); }
      var owner := OwnerOf(Now(), q);
      if SurveyRefused(Now(), p) { return Refused(AlreadySurveyed); }
      UseRetry(p);
      if LiveCount(Now()) >= setup.budget { return Refused(BudgetExhausted); }
      var id := TakeSlot(p, owner);
      if launch.Starts? {
        StartRun(id, p);
        return Started(id);
      }
      GiveUp(id, p, launch);
      return Refused(LaunchFailed);
    }

    method UseRetry(p: Profile)
      modifies `retry, `retryUsed
      ensures Now() == TakeRetry(old(Now()), p)
    {
      if IsSurvey(p) && SpawnsOf(Now(), p) >= SurveyCap(Now(), p) {
        retry := retry - {p};
        retryUsed := retryUsed + {p};
      }
    }

    method TakeSlot(p: Profile, owner: Option<Id>) returns (id: Id)
      modifies `issued, `reserved, `spawns, `verifying, `verifyOwner
      ensures id == old(issued) && Now() == Reserve(old(Now()), p, owner)
    {
      id := issued;
      issued := issued + 1;
      reserved := reserved[id := p];
      CountSpawn(p);
      FileVerifier(owner, id);
    }

    method CountSpawn(p: Profile)
      modifies `spawns
      ensures spawns == CountUp(old(spawns), p)
    {
      if IsSurvey(p) { spawns := spawns[p := SpawnsIn(spawns, p) + 1]; }
    }

    method UncountSpawn(p: Profile)
      modifies `spawns
      ensures spawns == CountDown(old(spawns), p)
    {
      if IsSurvey(p) {
        var n := SpawnsIn(spawns, p) - 1;
        spawns := if n <= 0 then spawns - {p} else spawns[p := n];
      }
    }

    method FileVerifier(owner: Option<Id>, id: Id)
      modifies `verifying, `verifyOwner
      ensures (verifying, verifyOwner) == File(old(verifying), old(verifyOwner), owner, id)
    {
      if owner.Some? {
        verifying := AddTo(verifying, owner.value, id);
        verifyOwner := verifyOwner[id := owner.value];
      }
    }

    method StartRun(id: Id, p: Profile)
      modifies `writerRuns, `lastCoder, `children, `reserved, `surveyStarted
      ensures Now() == Enter(old(Now()), id, p)
    {
      if IsWriter(p) { writerRuns := writerRuns[id := p]; }
      if p.Coder? { lastCoder := Some(id); }
      children := children[id := Child(p, Running)];
      reserved := reserved - {id};
      if IsSurvey(p) { surveyStarted := true; }
    }

    method GiveUp(id: Id, p: Profile, launch: Launch)
      modifies `reserved, `spawns, `verifying, `verifyOwner, `lastCoder
      ensures Now() == Unreserve(old(Now()), id, p, launch)
    {
      reserved := reserved - {id};
      UncountSpawn(p);
      ReleaseVerifier(id);
      if p.Coder? && launch.FailsToStart? { lastCoder := None; }
    }

    method ReleaseVerifier(id: Id)
      modifies `verifying, `verifyOwner
      ensures (verifying, verifyOwner) == Unfile(old(verifying), old(verifyOwner), id)
    {
      if id !in verifyOwner { return; }
      var owner := verifyOwner[id];
      verifyOwner := verifyOwner - {id};
      if owner in verifying {
        var left := verifying[owner] - {id};
        verifying := if left != {} then verifying[owner := left] else verifying - {owner};
      }
    }

    method ChildFinished(id: Id, status: Status, files: set<Path>)
      requires id in children && children[id].phase.Running?
      modifies this
      ensures Now() == FinishRun(old(Now()), id, status, files)
    {
      var p := children[id].profile;
      var touched: set<Path> := {};
      if p.Coder? { touched := files + AllFiles(unverified); }
      assert touched == Touched(Now(), p, files);
      RecordOutcome(id, p, status, touched);
      ReleaseVerifier(id);
      children := children[id := Child(p, Closing(touched, status.Finished? && touched != {}))];
    }

    method RecordOutcome(id: Id, p: Profile, status: Status, touched: set<Path>)
      modifies `unverified, `retry
      ensures Now() == RecordRun(old(Now()), id, p, status, touched)
    {
      if touched != {} { unverified := unverified[id := touched]; }
      if status.Incomplete? && IsSurvey(p) && p !in retryUsed { retry := retry + {p}; }
    }

    method BrowserClosed(id: Id, reviewer: Launch, tester: Launch)
      requires id in children && children[id].phase.Closing?
      modifies this
      ensures Now() == AfterClosing(setup, old(Now()), id, reviewer, tester)
    {
      var Child(p, Closing(files, verify)) := children[id];
      var stopping := aborting;
      if verify && !stopping {
        var allStarted := Verify(id, files, reviewer, tester);
      }
      if stopping {
        children := children - {id};
      } else {
        children := children[id := Child(p, Reporting)];
      }
    }

    method ResultReported(id: Id)
      modifies `children
      ensures Now() == AfterReporting(old(Now()), id)
    {
      if id in children && children[id].phase.Reporting? { children := children - {id}; }
    }

    method ResetUserMessageSpawns()
      modifies `spawns, `retry, `retryUsed, `surveyStarted, `surveyClosed
      ensures Now() == UserMessage(old(Now()))
    {
      spawns, retry, retryUsed := map[], {}, {};
      surveyStarted, surveyClosed := false, false;
    }

    method ToolsDispatched()
      modifies `surveyStarted, `surveyClosed
      ensures Now() == AfterTools(old(Now()))
    {
      if surveyStarted { surveyClosed := true; }
      surveyStarted := false;
    }

    method Verify(owner: Id, files: set<Path>, reviewer: Launch, tester: Launch) returns (all: bool)
      modifies this
      ensures (Now(), all) == StartVerification(setup, old(Now()), owner, files, reviewer, tester)
    {
      var reply := SpawnChild(Request(Reviewer, None, Some(owner)), reviewer);
      all := reply.Started?;
      if !DocsOnly(setup, files) {
        reply := SpawnChild(Request(Tester, None, Some(owner)), tester);
        all := all && reply.Started?;
      }
      unverified := if all then map[] else unverified[owner := files];
    }
  }
}
