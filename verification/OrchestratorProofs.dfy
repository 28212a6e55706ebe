/** What the spawn and verification protocol guarantees over every run of its steps. */
module OrchestratorProofs {
  import opened Orchestrators
  import opened Wrappers

  /** One step of the event loop that touches the orchestrator. The model names no verify owner. An early
      cancellation reaches a child before its first step; it is allowed here for any running child. */
  datatype Event =
    | SpawnCalled(profile: Profile, continueFrom: Option<Id>, launch: Launch)
    | RunEnded(id: Id, status: Status, files: set<Path>)
    | PageClosed(id: Id, reviewer: Launch, tester: Launch)
    | ResultReported(id: Id)
    | CancelledLate(id: Id)
    | CancelledEarly(id: Id)
    | AbortStarted
    | BudgetReset
    | MessageArrived
    | TurnBegan(inbox: bool)
    | ToolsDispatched

  function Next(c: Setup, s: State, e: Event): State {
    match e
    case SpawnCalled(p, from, launch) => Spawn(c, s, Request(p, from, None), launch).0
    case RunEnded(id, status, files) => FinishRun(s, id, status, files)
    case PageClosed(id, reviewer, tester) => AfterClosing(c, s, id, reviewer, tester)
    case ResultReported(id) => AfterReporting(s, id)
    case CancelledLate(id) => CancelLate(s, id)
    case CancelledEarly(id) => CancelEarly(s, id)
    case AbortStarted => s.(aborting := true)
    case BudgetReset => s.(aborting := false)
    case MessageArrived => UserMessage(s)
    case TurnBegan(inbox) => BeginTurn(s, inbox)
    case ToolsDispatched => AfterTools(s)
  }

  function Reached(c: Setup, events: seq<Event>): State {
    if events == [] then INITIAL else Next(c, Reached(c, events[..|events| - 1]), events[|events| - 1])
  }

  /****** The invariant ******/

  ghost predicate Fresh(s: State) {
    && (forall i | i in s.children :: i < s.issued)
    && (forall i | i in s.verifyOwner :: i < s.issued)
  }

  /** The two verifier indexes are each other's inverse, and no owner is kept with nobody behind it. */
  ghost predicate Filed(verifying: map<Id, set<Id>>, verifyOwner: map<Id, Id>) {
    && (forall i | i in verifyOwner :: verifyOwner[i] in verifying && i in verifying[verifyOwner[i]])
    && (forall o, i | o in verifying && i in verifying[o] :: i in verifyOwner && verifyOwner[i] == o)
    && (forall o | o in verifying :: verifying[o] != {})
  }

  /** Everything filed as a verifier is one still running, or one that was cancelled before it began. */
  ghost predicate Behind(children: map<Id, Child>, verifyOwner: map<Id, Id>) {
    forall i | i in verifyOwner ::
      i in children && IsVerifier(children[i].profile) && (children[i].phase.Running? || children[i].phase.Done?)
  }

  predicate LiveCoder(children: map<Id, Child>, i: Id) {
    i in children && !children[i].phase.Done? && children[i].profile.Coder?
  }

  ghost predicate OneCoder(children: map<Id, Child>) {
    forall i, j | LiveCoder(children, i) && LiveCoder(children, j) :: i == j
  }

  ghost predicate WithinBudget(c: Setup, s: State) {
    s.reserved == map[] && |Live(s.children)| <= (if c.budget > 0 then c.budget else 0)
  }

  ghost predicate SurveysCapped(s: State) {
    && (forall p | IsSurvey(p) :: 0 <= SpawnsOf(s, p) <= FirstCap(p) + (if p in s.retryUsed then 1 else 0))
    && s.retry !! s.retryUsed
  }

  ghost predicate Inv(c: Setup, s: State) {
    && Fresh(s)
    && Filed(s.verifying, s.verifyOwner)
    && Behind(s.children, s.verifyOwner)
    && OneCoder(s.children)
    && WithinBudget(c, s)
    && SurveysCapped(s)
  }

  /****** The verifier indexes ******/

  lemma {:induction false} AddKeepsFiled(v: map<Id, set<Id>>, vo: map<Id, Id>, owner: Id, id: Id)
    requires Filed(v, vo) && id !in vo
    ensures Filed(AddTo(v, owner, id), vo[id := owner])
  {
  }

  lemma {:induction false} UnfileKeepsFiled(v: map<Id, set<Id>>, vo: map<Id, Id>, id: Id)
    requires Filed(v, vo)
    ensures var (v', vo') := Unfile(v, vo, id);
            Filed(v', vo') && vo' == vo - {id}
  {
  }

  /** Withdrawing a verifier that was just filed leaves both indexes as they were. */
  lemma {:induction false} WithdrawnIsUndone(v: map<Id, set<Id>>, vo: map<Id, Id>, owner: Id, id: Id)
    requires Filed(v, vo) && id !in vo
    ensures Unfile(AddTo(v, owner, id), vo[id := owner], id) == (v, vo)
  {
    var added := AddTo(v, owner, id);
    assert vo[id := owner] - {id} == vo;
    if owner in v {
      assert id !in v[owner];
      assert added[owner] - {id} == v[owner];
      assert added[owner := v[owner]] == v;
    } else {
      assert added[owner] - {id} == {};
      assert added - {owner} == v;
    }
  }

  /****** Spawning ******/

  lemma {:induction false} LiveGrows(children: map<Id, Child>, id: Id, child: Child)
    requires id !in children && !child.phase.Done?
    ensures Live(children[id := child]) == Live(children) + {id}
    ensures |Live(children[id := child])| == |Live(children)| + 1
  {
    assert Live(children[id := child]) == Live(children) + {id};
  }

  lemma {:induction false} CountedBack(spawns: map<Profile, int>, p: Profile, q: Profile)
    requires 0 <= SpawnsIn(spawns, p)
    ensures SpawnsIn(CountUp(spawns, p), q) == SpawnsIn(spawns, q) + (if q == p && IsSurvey(p) then 1 else 0)
    ensures SpawnsIn(CountDown(CountUp(spawns, p), p), q) == SpawnsIn(spawns, q)
  {
  }

  /** A launch that fails costs the caller an id and, over the cap, the survey retry; and a coder's that
      fails late costs the memory of the coder before it. */
  lemma {:induction false} FailedLaunch(t: State, p: Profile, owner: Option<Id>, launch: Launch)
    requires Fresh(t) && Filed(t.verifying, t.verifyOwner) && t.reserved == map[]
    ensures var u := Unreserve(Reserve(t, p, owner), t.issued, p, launch);
            u == t.(issued := t.issued + 1, spawns := CountDown(CountUp(t.spawns, p), p),
                    lastCoder := if p.Coder? && launch.FailsToStart? then None else t.lastCoder)
  {
    var id := t.issued;
    if owner.Some? { WithdrawnIsUndone(t.verifying, t.verifyOwner, owner.value, id); }
    var none: map<Id, Profile> := map[];
    assert none[id := p] - {id} == none;
  }

  lemma {:induction false} RetryKeeps(c: Setup, s: State, p: Profile)
    requires Inv(c, s) && !SurveyRefused(s, p)
    ensures var t := TakeRetry(s, p);
            && Inv(c, t)
            && (IsSurvey(p) ==> SpawnsOf(t, p) + 1 <= FirstCap(p) + (if p in t.retryUsed then 1 else 0))
  {
    if IsSurvey(p) && SpawnsOf(s, p) >= SurveyCap(s, p) {
      assert p !in s.retryUsed;
      assert forall q :: SpawnsOf(TakeRetry(s, p), q) == SpawnsOf(s, q);
    }
  }

  /** The state after a child of profile `p` has been reserved under `owner` and started. */
  lemma {:induction false} StartKeeps(c: Setup, t: State, p: Profile, owner: Option<Id>)
    requires Inv(c, t) && LiveCount(t) < c.budget
    requires p.Coder? ==> !CoderIsLive(t)
    requires owner.Some? ==> IsVerifier(p)
    requires IsSurvey(p) ==> SpawnsOf(t, p) + 1 <= FirstCap(p) + (if p in t.retryUsed then 1 else 0)
    ensures Inv(c, Enter(Reserve(t, p, owner), t.issued, p))
  {
    var id := t.issued;
    var s := Enter(Reserve(t, p, owner), id, p);
    StartKeepsGate(t, p, owner);
    StartKeepsCoder(t, p);
    StartKeepsSurveys(t, p);
    StartKeepsBudget(c, t, p, owner);
    assert s.spawns == CountUp(t.spawns, p) && s.retry == t.retry && s.retryUsed == t.retryUsed;
    assert s.children == t.children[id := Child(p, Running)] && s.issued == id + 1;
    assert SurveysCapped(s) && OneCoder(s.children);
  }

  lemma {:induction false} StartKeepsGate(t: State, p: Profile, owner: Option<Id>)
    requires Fresh(t) && Filed(t.verifying, t.verifyOwner) && Behind(t.children, t.verifyOwner)
    requires owner.Some? ==> IsVerifier(p)
    ensures var s := Enter(Reserve(t, p, owner), t.issued, p);
            Fresh(s) && Filed(s.verifying, s.verifyOwner) && Behind(s.children, s.verifyOwner)
  {
    if owner.Some? { AddKeepsFiled(t.verifying, t.verifyOwner, owner.value, t.issued); }
  }

  lemma {:induction false} StartKeepsBudget(c: Setup, t: State, p: Profile, owner: Option<Id>)
    requires Fresh(t) && WithinBudget(c, t) && LiveCount(t) < c.budget
    ensures WithinBudget(c, Enter(Reserve(t, p, owner), t.issued, p))
  {
    LiveGrows(t.children, t.issued, Child(p, Running));
    NoneLeft(t.issued, p);
  }

  lemma {:induction false} NoneLeft(id: Id, p: Profile)
    ensures var none: map<Id, Profile> := map[]; none[id := p] - {id} == none
  {
    var none: map<Id, Profile> := map[];
    assert none[id := p] - {id} == none;
  }

  lemma {:induction false} StartKeepsSurveys(t: State, p: Profile)
    requires SurveysCapped(t)
    requires IsSurvey(p) ==> SpawnsOf(t, p) + 1 <= FirstCap(p) + (if p in t.retryUsed then 1 else 0)
    ensures SurveysCapped(t.(spawns := CountUp(t.spawns, p)))
  {
    forall q | IsSurvey(q) ensures SpawnsOf(t, q) <= SpawnsIn(CountUp(t.spawns, p), q) <= FirstCap(q) + (if q in t.retryUsed then 1 else 0) {
      if IsSurvey(p) { assert 0 <= SpawnsOf(t, p); CountedBack(t.spawns, p, q); }
    }
  }

  lemma {:induction false} StartKeepsCoder(t: State, p: Profile)
    requires Fresh(t) && OneCoder(t.children)
    requires p.Coder? ==> !CoderIsLive(t)
    ensures OneCoder(t.children[t.issued := Child(p, Running)])
  {
    if p.Coder? {
      assert forall i :: !LiveCoder(t.children, i);
    } else {
      var after := t.children[t.issued := Child(p, Running)];
      forall i | LiveCoder(after, i) ensures LiveCoder(t.children, i) { assert i != t.issued; }
    }
  }

  lemma {:induction false} FailureKeeps(c: Setup, t: State, p: Profile, owner: Option<Id>, launch: Launch)
    requires Inv(c, t)
    ensures Inv(c, Unreserve(Reserve(t, p, owner), t.issued, p, launch))
  {
    FailedLaunch(t, p, owner, launch);
    var u := Unreserve(Reserve(t, p, owner), t.issued, p, launch);
    forall q | IsSurvey(q) ensures SpawnsOf(u, q) == SpawnsOf(t, q) {
      if IsSurvey(p) { assert 0 <= SpawnsOf(t, p); CountedBack(t.spawns, p, q); }
    }
  }

  lemma {:induction false} PlaceKeeps(c: Setup, t: State, p: Profile, owner: Option<Id>, launch: Launch)
    requires Inv(c, t) && LiveCount(t) < c.budget
    requires p.Coder? ==> !CoderIsLive(t)
    requires owner.Some? ==> IsVerifier(p)
    requires IsSurvey(p) ==> SpawnsOf(t, p) + 1 <= FirstCap(p) + (if p in t.retryUsed then 1 else 0)
    ensures Inv(c, Place(t, p, owner, launch).0)
  {
    if launch.Starts? { StartKeeps(c, t, p, owner); } else { FailureKeeps(c, t, p, owner, launch); }
  }

  lemma {:induction false} SpawnKeeps(c: Setup, s: State, q: Request, launch: Launch)
    requires Inv(c, s) && (q.verifyOwner.Some? ==> IsVerifier(q.profile))
    ensures Inv(c, Spawn(c, s, q, launch).0)
  {
    var p := q.profile;
    if Gate(c, s, q).None? && !SurveyRefused(s, p) {
      RetryKeeps(c, s, p);
      var t := TakeRetry(s, p);
      if LiveCount(t) < c.budget { PlaceKeeps(c, t, p, OwnerOf(s, q), launch); }
    }
  }

  /****** The other steps ******/

  lemma {:induction false} LiveShrinks(children: map<Id, Child>, after: map<Id, Child>)
    requires Live(after) <= Live(children)
    ensures |Live(after)| <= |Live(children)|
  {
    var rest := Live(children) - Live(after);
    assert Live(children) == Live(after) + rest;
  }

  /** Moving one child along, or removing it, adds no live child and no live coder. */
  lemma {:induction false} PhaseKeeps(c: Setup, s: State, after: State, id: Id)
    requires Inv(c, s) && id in s.children && !s.children[id].phase.Done?
    requires after == s.(children := after.children)
    requires after.children.Keys <= s.children.Keys
    requires forall i | i in after.children && i != id :: after.children[i] == s.children[i]
    requires id in after.children ==> after.children[id].profile == s.children[id].profile
    requires id in s.verifyOwner ==> id in after.children && after.children[id].phase.Done?
    requires forall i | i in s.children && i != id :: i in after.children
    ensures Inv(c, after)
  {
    LiveShrinks(s.children, after.children);
    assert forall i :: LiveCoder(after.children, i) ==> LiveCoder(s.children, i);
    assert forall p :: SpawnsOf(after, p) == SpawnsOf(s, p);
  }

  lemma {:induction false} ReleaseKeeps(c: Setup, s: State, id: Id)
    requires Inv(c, s)
    ensures Inv(c, Release(s, id)) && id !in Release(s, id).verifyOwner
  {
    UnfileKeepsFiled(s.verifying, s.verifyOwner, id);
    var r := Release(s, id);
    assert r.verifyOwner == s.verifyOwner - {id} && r.spawns == s.spawns;
    assert Fresh(r) && Behind(r.children, r.verifyOwner);
    assert forall p :: SpawnsOf(r, p) == SpawnsOf(s, p);
  }

  lemma {:induction false} RecordKeeps(c: Setup, s: State, id: Id, p: Profile, status: Status, touched: set<Path>)
    requires Inv(c, s)
    ensures Inv(c, RecordRun(s, id, p, status, touched))
  {
    assert forall p :: SpawnsOf(RecordRun(s, id, p, status, touched), p) == SpawnsOf(s, p);
  }

  lemma {:induction false} FinishKeeps(c: Setup, s: State, id: Id, status: Status, files: set<Path>)
    requires Inv(c, s)
    ensures Inv(c, FinishRun(s, id, status, files))
  {
    if id in s.children && s.children[id].phase.Running? {
      var p := s.children[id].profile;
      var touched := Touched(s, p, files);
      var recorded := RecordRun(s, id, p, status, touched);
      RecordKeeps(c, s, id, p, status, touched);
      ReleaseKeeps(c, recorded, id);
      PhaseKeeps(c, Release(recorded, id), FinishRun(s, id, status, files), id);
    }
  }

  /** A child past its run is behind no gate. */
  lemma {:induction false} ClosingIsUnfiled(c: Setup, s: State, id: Id)
    requires Inv(c, s) && id in s.children && (s.children[id].phase.Closing? || s.children[id].phase.Reporting?)
    ensures id !in s.verifyOwner
  {
  }

  lemma {:induction false} PlaceFrame(s: State, p: Profile, owner: Option<Id>, launch: Launch)
    requires Fresh(s)
    ensures var (t, reply) := Place(s, p, owner, launch);
            && t.unverified == s.unverified && t.aborting == s.aborting
            && (reply.Started? ==> reply.id == s.issued && s.issued !in s.children)
            && t.children == if reply.Started? then s.children[s.issued := Child(p, Running)] else s.children
  {
    var r := Reserve(s, p, owner);
    assert r.children == s.children && r.unverified == s.unverified && r.aborting == s.aborting;
  }

  /** A spawn leaves the ledger alone and adds at most the one child it reports. */
  lemma {:induction false} SpawnFrame(c: Setup, s: State, q: Request, launch: Launch)
    requires Fresh(s)
    ensures var (t, reply) := Spawn(c, s, q, launch);
            && t.unverified == s.unverified && t.aborting == s.aborting
            && (reply.Started? ==> reply.id == s.issued && s.issued !in s.children)
            && t.children == if reply.Started? then s.children[s.issued := Child(q.profile, Running)] else s.children
  {
    if Gate(c, s, q).None? && !SurveyRefused(s, q.profile) {
      var t := TakeRetry(s, q.profile);
      assert t.issued == s.issued && t.children == s.children && t.unverified == s.unverified && t.aborting == s.aborting;
      if LiveCount(t) < c.budget {
        PlaceFrame(t, q.profile, OwnerOf(s, q), launch);
        assert Spawn(c, s, q, launch) == Place(t, q.profile, OwnerOf(s, q), launch);
      }
    }
  }

  ghost predicate Extends(before: map<Id, Child>, after: map<Id, Child>) {
    forall i | i in before :: i in after && after[i] == before[i]
  }

  /** The ledger and every child already there are left alone; new children run. */
  ghost predicate Grown(s: State, t: State) {
    && Extends(s.children, t.children) && t.unverified == s.unverified && t.aborting == s.aborting
    && forall i | i in t.children && i !in s.children :: t.children[i].phase.Running?
  }

  lemma {:induction false} SpawnGrows(c: Setup, s: State, q: Request, launch: Launch)
    requires Inv(c, s) && (q.verifyOwner.Some? ==> IsVerifier(q.profile))
    ensures Inv(c, Spawn(c, s, q, launch).0) && Grown(s, Spawn(c, s, q, launch).0)
  {
    SpawnKeeps(c, s, q, launch);
    SpawnFrame(c, s, q, launch);
  }

  lemma {:induction false} GrownAgain(a: State, b: State, c: State)
    requires Grown(a, b) && Grown(b, c)
    ensures Grown(a, c)
  {
  }

  /** What starting the verifiers leaves. */
  lemma {:induction false} VerifiersKeep(c: Setup, s: State, owner: Id, files: set<Path>, reviewer: Launch, tester: Launch)
    requires Inv(c, s)
    ensures var t := StartVerifiers(c, s, owner, files, reviewer, tester).0;
            Inv(c, t) && Grown(s, t)
  {
    var q, q2 := Request(Reviewer, None, Some(owner)), Request(Tester, None, Some(owner));
    SpawnGrows(c, s, q, reviewer);
    var s1 := Spawn(c, s, q, reviewer).0;
    if !DocsOnly(c, files) {
      SpawnGrows(c, s1, q2, tester);
      GrownAgain(s, s1, Spawn(c, s1, q2, tester).0);
    }
  }

  lemma {:induction false} VerificationKeeps(c: Setup, s: State, owner: Id, files: set<Path>, reviewer: Launch, tester: Launch)
    requires Inv(c, s)
    ensures var t := StartVerification(c, s, owner, files, reviewer, tester).0;
            && Inv(c, t) && Extends(s.children, t.children) && t.aborting == s.aborting
            && forall i | i in t.children && i !in s.children :: t.children[i].phase.Running?
    ensures var (t, all) := StartVerification(c, s, owner, files, reviewer, tester);
            t.unverified == if all then map[] else s.unverified[owner := files]
  {
    VerifiersKeep(c, s, owner, files, reviewer, tester);
    LedgerIsFree(c, StartVerifiers(c, s, owner, files, reviewer, tester).0);
  }

  lemma {:induction false} LedgerIsFree(c: Setup, s: State)
    requires Inv(c, s)
    ensures forall ledger :: Inv(c, s.(unverified := ledger))
  {
    forall ledger ensures Inv(c, s.(unverified := ledger)) {
      assert forall p :: SpawnsOf(s.(unverified := ledger), p) == SpawnsOf(s, p);
    }
  }

  lemma {:induction false} ClosingKeeps(c: Setup, s: State, id: Id, reviewer: Launch, tester: Launch)
    requires Inv(c, s)
    ensures Inv(c, AfterClosing(c, s, id, reviewer, tester))
  {
    if id in s.children && s.children[id].phase.Closing? {
      var child := s.children[id];
      VerificationKeeps(c, s, id, child.phase.files, reviewer, tester);
      var r := if child.phase.verify && !s.aborting then StartVerification(c, s, id, child.phase.files, reviewer, tester).0 else s;
      ClosingIsUnfiled(c, r, id);
      PhaseKeeps(c, r, AfterClosing(c, s, id, reviewer, tester), id);
    }
  }

  lemma {:induction false} StepKeeps(c: Setup, s: State, e: Event)
    requires Inv(c, s)
    ensures Inv(c, Next(c, s, e))
  {
    match e
    case SpawnCalled(p, from, launch) => SpawnKeeps(c, s, Request(p, from, None), launch);
    case RunEnded(id, status, files) => FinishKeeps(c, s, id, status, files);
    case PageClosed(id, reviewer, tester) => ClosingKeeps(c, s, id, reviewer, tester);
    case ResultReported(id) =>
      if id in s.children && s.children[id].phase.Reporting? {
        ClosingIsUnfiled(c, s, id);
        PhaseKeeps(c, s, AfterReporting(s, id), id);
      }
    case CancelledLate(id) =>
      if id in s.children && (s.children[id].phase.Closing? || s.children[id].phase.Reporting?) {
        ClosingIsUnfiled(c, s, id);
        PhaseKeeps(c, s, CancelLate(s, id), id);
      }
    case CancelledEarly(id) =>
      if id in s.children && s.children[id].phase.Running? { PhaseKeeps(c, s, CancelEarly(s, id), id); }
    case AbortStarted => FlagsKeep(c, s, Next(c, s, e));
    case BudgetReset => FlagsKeep(c, s, Next(c, s, e));
    case MessageArrived => FlagsKeep(c, s, Next(c, s, e));
    case TurnBegan(_) => FlagsKeep(c, s, Next(c, s, e));
    case ToolsDispatched => FlagsKeep(c, s, Next(c, s, e));
  }

  lemma {:induction false} FlagsKeep(c: Setup, s: State, t: State)
    requires Inv(c, s)
    requires t.children == s.children && t.reserved == s.reserved && t.issued == s.issued
    requires t.verifying == s.verifying && t.verifyOwner == s.verifyOwner
    requires (t.spawns, t.retry, t.retryUsed) == (s.spawns, s.retry, s.retryUsed)
             || (t.spawns, t.retry, t.retryUsed) == (map[], {}, {})
    ensures Inv(c, t)
  {
    if t.spawns == s.spawns { assert forall p :: SpawnsOf(t, p) == SpawnsOf(s, p); }
  }

  /** Every reachable state: at most one live coder, live children within the budget, the verifier
      indexes mutually inverse with a verifier behind each entry, surveys within their caps. */
  lemma {:induction false} EveryRunIsSafe(c: Setup, events: seq<Event>)
    ensures Inv(c, Reached(c, events))
  {
    if events == [] {
      assert Live(INITIAL.children) == {};
    } else {
      EveryRunIsSafe(c, events[..|events| - 1]);
      StepKeeps(c, Reached(c, events[..|events| - 1]), events[|events| - 1]);
    }
  }

  /****** What the invariant gives ******/

  /** The verifiers that were cancelled before their first step while they were filed. */
  ghost function Stranded(c: Setup, events: seq<Event>): set<Id> {
    if events == [] then {}
    else
      var front := events[..|events| - 1];
      var s, before := Reached(c, front), Stranded(c, front);
      match events[|events| - 1]
      case CancelledEarly(id) => before + Strands(s, id)
      case _ => before
  }

  /** Filed, but done. */
  ghost function Stuck(s: State): set<Id> {
    StuckIn(s.children, s.verifyOwner)
  }

  ghost function StuckIn(children: map<Id, Child>, verifyOwner: map<Id, Id>): set<Id> {
    set i | i in verifyOwner && i in children && children[i].phase.Done?
  }

  lemma {:induction false} UnfiledMoves(children: map<Id, Child>, verifyOwner: map<Id, Id>, id: Id, child: Child)
    requires id !in verifyOwner
    ensures StuckIn(children[id := child], verifyOwner) == StuckIn(children, verifyOwner)
    ensures StuckIn(children - {id}, verifyOwner) == StuckIn(children, verifyOwner)
  {
  }

  lemma {:induction false} EndedMoves(children: map<Id, Child>, verifyOwner: map<Id, Id>, id: Id, child: Child)
    requires child.phase.Done?
    ensures StuckIn(children[id := child], verifyOwner) == StuckIn(children, verifyOwner) + (if id in verifyOwner then {id} else {})
  {
  }

  lemma {:induction false} PlaceSticks(t: State, p: Profile, owner: Option<Id>, launch: Launch)
    requires Fresh(t) && Filed(t.verifying, t.verifyOwner)
    ensures Stuck(Place(t, p, owner, launch).0) == Stuck(t)
  {
    PlaceFrame(t, p, owner, launch);
    if owner.Some? { WithdrawnIsUndone(t.verifying, t.verifyOwner, owner.value, t.issued); }
  }

  lemma {:induction false} SpawnSticks(c: Setup, s: State, q: Request, launch: Launch)
    requires Inv(c, s)
    ensures Stuck(Spawn(c, s, q, launch).0) == Stuck(s)
  {
    if Gate(c, s, q).None? && !SurveyRefused(s, q.profile) {
      var t := TakeRetry(s, q.profile);
      assert t.verifyOwner == s.verifyOwner && t.verifying == s.verifying && t.children == s.children && t.issued == s.issued;
      if LiveCount(t) < c.budget {
        PlaceSticks(t, q.profile, OwnerOf(s, q), launch);
        assert Spawn(c, s, q, launch) == Place(t, q.profile, OwnerOf(s, q), launch);
      }
    }
  }

  lemma {:induction false} VerificationSticks(c: Setup, s: State, owner: Id, files: set<Path>, reviewer: Launch, tester: Launch)
    requires Inv(c, s)
    ensures Stuck(StartVerification(c, s, owner, files, reviewer, tester).0) == Stuck(s)
  {
    var q, q2 := Request(Reviewer, None, Some(owner)), Request(Tester, None, Some(owner));
    SpawnSticks(c, s, q, reviewer);
    SpawnKeeps(c, s, q, reviewer);
    SpawnSticks(c, Spawn(c, s, q, reviewer).0, q2, tester);
  }

  lemma {:induction false} ClosingSticks(c: Setup, s: State, id: Id, reviewer: Launch, tester: Launch)
    requires Inv(c, s)
    ensures Stuck(AfterClosing(c, s, id, reviewer, tester)) == Stuck(s)
  {
    if id in s.children && s.children[id].phase.Closing? {
      var child := s.children[id];
      VerificationSticks(c, s, id, child.phase.files, reviewer, tester);
      VerificationKeeps(c, s, id, child.phase.files, reviewer, tester);
      var r := if child.phase.verify && !s.aborting then StartVerification(c, s, id, child.phase.files, reviewer, tester).0 else s;
      assert r.children[id] == child;
      ClosingIsUnfiled(c, r, id);
    }
  }

  lemma {:induction false} FinishSticks(c: Setup, s: State, id: Id, status: Status, files: set<Path>)
    requires Inv(c, s)
    ensures Stuck(FinishRun(s, id, status, files)) == Stuck(s)
  {
    UnfileKeepsFiled(s.verifying, s.verifyOwner, id);
  }

  /** What an early cancellation of one child strands. */
  ghost function Strands(s: State, id: Id): set<Id> {
    if id in s.children && s.children[id].phase.Running? && id in s.verifyOwner then {id} else {}
  }

  lemma {:induction false} EarlySticks(s: State, id: Id)
    ensures Stuck(CancelEarly(s, id)) == Stuck(s) + Strands(s, id)
  {
    if id in s.children { EndedMoves(s.children, s.verifyOwner, id, s.children[id].(phase := Done)); }
  }

  lemma {:induction false} MoveSticks(s: State, t: State, id: Id, child: Child)
    requires id !in s.verifyOwner && t.verifyOwner == s.verifyOwner
    requires t.children == s.children || t.children == s.children[id := child] || t.children == s.children - {id}
    ensures Stuck(t) == Stuck(s)
  {
    UnfiledMoves(s.children, s.verifyOwner, id, child);
  }

  lemma {:induction false} LateSticks(s: State, id: Id)
    requires id in s.children && (s.children[id].phase.Closing? || s.children[id].phase.Reporting?) && id !in s.verifyOwner
    ensures Stuck(CancelLate(s, id)) == Stuck(s) && Stuck(AfterReporting(s, id)) == Stuck(s)
  {
    var child := s.children[id].(phase := Done);
    MoveSticks(s, CancelLate(s, id), id, child);
    MoveSticks(s, AfterReporting(s, id), id, child);
  }

  lemma {:induction false} LateEventSticks(c: Setup, s: State, id: Id)
    requires Inv(c, s)
    ensures Stuck(CancelLate(s, id)) == Stuck(s) && Stuck(AfterReporting(s, id)) == Stuck(s)
  {
    if id in s.children && (s.children[id].phase.Closing? || s.children[id].phase.Reporting?) {
      ClosingIsUnfiled(c, s, id);
      LateSticks(s, id);
    }
  }

  lemma {:induction false} StepSticks(c: Setup, s: State, e: Event)
    requires Inv(c, s)
    ensures Stuck(Next(c, s, e)) == Stuck(s) + if e.CancelledEarly? then Strands(s, e.id) else {}
  {
    if e.CancelledEarly? { EarlySticks(s, e.id); } else { OtherStepSticks(c, s, e); }
  }

  lemma {:induction false} OtherStepSticks(c: Setup, s: State, e: Event)
    requires Inv(c, s) && !e.CancelledEarly?
    ensures Stuck(Next(c, s, e)) == Stuck(s)
  {
    match e
    case SpawnCalled(p, from, launch) => SpawnSticks(c, s, Request(p, from, None), launch);
    case RunEnded(id, status, files) => FinishSticks(c, s, id, status, files);
    case PageClosed(id, reviewer, tester) => ClosingSticks(c, s, id, reviewer, tester);
    case ResultReported(id) => LateEventSticks(c, s, id);
    case CancelledLate(id) => LateEventSticks(c, s, id);
    case _ =>
  }

  /** What is stuck in the gate is exactly what an early cancellation stranded there. */
  lemma {:induction false} StuckIsStranded(c: Setup, events: seq<Event>)
    ensures Stuck(Reached(c, events)) == Stranded(c, events)
  {
    if events != [] {
      var front := events[..|events| - 1];
      StuckIsStranded(c, front);
      EveryRunIsSafe(c, front);
      StepSticks(c, Reached(c, front), events[|events| - 1]);
    }
  }

  /** A running verifier is behind every entry of the gate if and only if no filed verifier was cancelled
      before its first step. */
  lemma {:induction false} GateIsHeldIff(c: Setup, events: seq<Event>)
    ensures var s := Reached(c, events);
            (forall i | i in s.verifyOwner :: i in s.children && s.children[i].phase.Running? && IsVerifier(s.children[i].profile))
            <==> Stranded(c, events) == {}
  {
    EveryRunIsSafe(c, events);
    StuckIsStranded(c, events);
    var s := Reached(c, events);
    forall i | i in s.verifyOwner ensures i in s.children && (s.children[i].phase.Running? || i in Stuck(s)) {}
  }

  /** The gate is shut exactly when a filed verifier runs or an early cancellation has stranded one. */
  lemma {:induction false} ShutGateIff(c: Setup, events: seq<Event>)
    ensures var s := Reached(c, events);
            s.verifying != map[] <==>
            || Stranded(c, events) != {}
            || exists i :: i in s.verifyOwner && i in s.children && s.children[i].phase.Running? && IsVerifier(s.children[i].profile)
  {
    EveryRunIsSafe(c, events);
    StuckIsStranded(c, events);
    var s := Reached(c, events);
    ShutByOwner(s.verifying, s.verifyOwner);
    OwnedIff(s.children, s.verifyOwner);
  }

  lemma {:induction false} ShutByOwner(v: map<Id, set<Id>>, vo: map<Id, Id>)
    requires Filed(v, vo)
    ensures v != map[] <==> vo != map[]
  {
    if v != map[] {
      var owner :| owner in v;
      var i :| i in v[owner];
      assert i in vo;
    }
    if vo != map[] {
      var i :| i in vo;
      assert vo[i] in v;
    }
  }

  lemma {:induction false} OwnedIff(children: map<Id, Child>, vo: map<Id, Id>)
    requires Behind(children, vo)
    ensures vo != map[] <==>
            || StuckIn(children, vo) != {}
            || exists i :: i in vo && i in children && children[i].phase.Running? && IsVerifier(children[i].profile)
  {
    if vo != map[] {
      var i :| i in vo;
      assert children[i].phase.Running? || i in StuckIn(children, vo);
    }
  }

  /** With no child left, a coder is refused only for want of a profile, a budget, or a legal
      `continue_from` - or because an early cancellation has stranded a verifier. */
  lemma {:induction false} IdleOrchestratorTakesACoderIff(c: Setup, events: seq<Event>, from: Option<Id>, launch: Launch)
    requires Live(Reached(c, events).children) == {} && Coder in c.profiles && c.budget > 0
    requires from.Some? ==> from.value in Reached(c, events).writerRuns
    ensures var s := Reached(c, events);
            && (s.verifying == map[] <==> Stranded(c, events) == {})
            && (Spawn(c, s, Request(Coder, from, None), launch).1.Started? <==> launch.Starts? && Stranded(c, events) == {})
  {
    EveryRunIsSafe(c, events);
    var s := Reached(c, events);
    forall i | i in s.children ensures s.children[i].phase.Done? { assert i !in Live(s.children); }
    ShutGateIff(c, events);
  }

  lemma {:induction false} StrandedStays(c: Setup, events: seq<Event>, more: seq<Event>)
    ensures Stranded(c, events) <= Stranded(c, events + more)
  {
    if more == [] {
      assert events + more == events;
    } else {
      var front := more[..|more| - 1];
      StrandedStays(c, events, front);
      assert (events + more)[..|events + more| - 1] == events + front;
    }
  }

  /** Once a verifier is stranded, no coder starts again, whatever happens. */
  lemma {:induction false} EarlyCancelJamsTheGate(c: Setup, events: seq<Event>, more: seq<Event>, from: Option<Id>, launch: Launch)
    requires Stranded(c, events) != {}
    ensures Spawn(c, Reached(c, events + more), Request(Coder, from, None), launch).1.Refused?
  {
    StrandedStays(c, events, more);
    ShutGateIff(c, events + more);
  }

  /** What a spawn is promised to require, in no order. */
  ghost predicate MayStart(c: Setup, s: State, q: Request) {
    && q.profile in c.profiles
    && (q.profile.Coder? ==> s.verifying == map[] && !CoderIsLive(s))
    && (IsVerifier(q.profile) && q.verifyOwner.None? ==> s.verifying == map[])
    && (q.continueFrom.Some? ==>
          && IsWriter(q.profile) && q.continueFrom.value in s.writerRuns && !IsLive(s, q.continueFrom.value)
          && q.continueFrom.value !in s.verifying)
    && (OwnerOf(s, q).Some? ==> OwnerOf(s, q).value in s.writerRuns && s.writerRuns[OwnerOf(s, q).value].Coder?)
    && (IsSurvey(q.profile) ==> !s.surveyClosed && (SpawnsOf(s, q.profile) < SurveyCap(s, q.profile) || q.profile in s.retry))
    && |Live(s.children)| < c.budget
  }

  /** In every reachable state a spawn starts if and only if it may and its launch succeeds. */
  lemma {:induction false} StartsIff(c: Setup, s: State, q: Request, launch: Launch)
    requires Inv(c, s)
    ensures Spawn(c, s, q, launch).1.Started? <==> MayStart(c, s, q) && launch.Starts?
  {
    assert LiveCount(s) == |Live(s.children)|;
    if Gate(c, s, q).None? && !SurveyRefused(s, q.profile) { SpawnPlaces(c, s, q, launch); }
    if q.continueFrom.Some? && q.continueFrom.value in s.verifying { assert s.verifying[q.continueFrom.value] != {}; }
  }

  /****** Surveys started for one user message ******/

  function SurveyStarts(c: Setup, events: seq<Event>, p: Profile): nat {
    if events == [] then 0
    else
      var front := events[..|events| - 1];
      match events[|events| - 1]
      case MessageArrived => 0
      case SpawnCalled(q, from, launch) =>
        SurveyStarts(c, front, p)
        + (if q == p && Spawn(c, Reached(c, front), Request(q, from, None), launch).1.Started? then 1 else 0)
      case _ => SurveyStarts(c, front, p)
  }

  lemma {:induction false} PlaceCounts(t: State, p: Profile, owner: Option<Id>, launch: Launch, q: Profile)
    requires IsSurvey(p) ==> 0 <= SpawnsOf(t, p)
    ensures var (u, reply) := Place(t, p, owner, launch);
            IsSurvey(q) ==> SpawnsOf(u, q) == SpawnsOf(t, q) + (if reply.Started? && p == q then 1 else 0)
  {
    if IsSurvey(p) { CountedBack(t.spawns, p, q); }
  }

  lemma {:induction false} SpawnCounts(c: Setup, s: State, q: Request, launch: Launch, p: Profile)
    requires Inv(c, s) && IsSurvey(p)
    ensures var (t, reply) := Spawn(c, s, q, launch);
            SpawnsOf(t, p) == SpawnsOf(s, p) + (if reply.Started? && q.profile == p then 1 else 0)
  {
    if Gate(c, s, q).None? && !SurveyRefused(s, q.profile) {
      var t := TakeRetry(s, q.profile);
      assert t.spawns == s.spawns;
      if LiveCount(t) < c.budget {
        assert IsSurvey(q.profile) ==> 0 <= SpawnsOf(s, q.profile);
        PlaceCounts(t, q.profile, OwnerOf(s, q), launch, p);
        assert Spawn(c, s, q, launch) == Place(t, q.profile, OwnerOf(s, q), launch);
      }
    }
  }

  lemma {:induction false} VerificationCounts(c: Setup, s: State, owner: Id, files: set<Path>, reviewer: Launch, tester: Launch, p: Profile)
    requires Inv(c, s) && IsSurvey(p)
    ensures SpawnsOf(StartVerification(c, s, owner, files, reviewer, tester).0, p) == SpawnsOf(s, p)
  {
    var q := Request(Reviewer, None, Some(owner));
    SpawnCounts(c, s, q, reviewer, p);
    SpawnKeeps(c, s, q, reviewer);
    SpawnCounts(c, Spawn(c, s, q, reviewer).0, Request(Tester, None, Some(owner)), tester, p);
  }

  lemma {:induction false} ClosingCounts(c: Setup, s: State, id: Id, reviewer: Launch, tester: Launch, p: Profile)
    requires Inv(c, s) && IsSurvey(p)
    ensures SpawnsOf(AfterClosing(c, s, id, reviewer, tester), p) == SpawnsOf(s, p)
  {
    if id in s.children && s.children[id].phase.Closing? {
      VerificationCounts(c, s, id, s.children[id].phase.files, reviewer, tester, p);
    }
  }

  lemma {:induction false} StepCounts(c: Setup, s: State, e: Event, p: Profile)
    requires Inv(c, s) && IsSurvey(p)
    ensures SpawnsOf(Next(c, s, e), p) ==
            match e
            case MessageArrived => 0
            case SpawnCalled(q, from, launch) =>
              SpawnsOf(s, p) + (if q == p && Spawn(c, s, Request(q, from, None), launch).1.Started? then 1 else 0)
            case _ => SpawnsOf(s, p)
  {
    match e
    case SpawnCalled(q, from, launch) => SpawnCounts(c, s, Request(q, from, None), launch, p);
    case PageClosed(id, reviewer, tester) => ClosingCounts(c, s, id, reviewer, tester, p);
    case _ =>
  }

  lemma {:induction false} StartsAreCounted(c: Setup, events: seq<Event>, p: Profile)
    requires IsSurvey(p)
    ensures SpawnsOf(Reached(c, events), p) == SurveyStarts(c, events, p)
  {
    if events != [] {
      var front := events[..|events| - 1];
      StartsAreCounted(c, front, p);
      EveryRunIsSafe(c, front);
      StepCounts(c, Reached(c, front), events[|events| - 1], p);
    }
  }

  /** At most one more than the cap of a survey profile starts for one user message. */
  lemma {:induction false} SurveysPerMessage(c: Setup, events: seq<Event>, p: Profile)
    requires IsSurvey(p)
    ensures SurveyStarts(c, events, p) <= FirstCap(p) + 1
  {
    StartsAreCounted(c, events, p);
    EveryRunIsSafe(c, events);
  }

  /****** What closes surveys, read off the events ******/

  /** The event at `i` started a survey. */
  ghost predicate SurveyStarted(c: Setup, events: seq<Event>, i: nat)
    requires i < |events|
  {
    match events[i]
    case SpawnCalled(p, from, launch) =>
      IsSurvey(p) && Spawn(c, Reached(c, events[..i]), Request(p, from, None), launch).1.Started?
    case _ => false
  }

  /** No user message and no turn has come since. */
  ghost predicate SameTurn(events: seq<Event>, i: nat) {
    forall k | i < k < |events| :: !events[k].MessageArrived? && !events[k].TurnBegan?
  }

  /** The tools of a reply have been dispatched since. */
  ghost predicate Dispatched(events: seq<Event>, i: nat) {
    exists k | i < k < |events| :: events[k].ToolsDispatched?
  }

  ghost predicate SurveysClosed(c: Setup, events: seq<Event>) {
    exists i: nat | i < |events| :: SurveyStarted(c, events, i) && SameTurn(events, i) && Dispatched(events, i)
  }

  ghost predicate SurveyPending(c: Setup, events: seq<Event>) {
    exists i: nat | i < |events| :: SurveyStarted(c, events, i) && SameTurn(events, i) && !Dispatched(events, i)
  }

  lemma {:induction false} OneEventOn(c: Setup, events: seq<Event>, e: Event, i: nat)
    requires i < |events|
    ensures var all := events + [e];
            && (SurveyStarted(c, all, i) <==> SurveyStarted(c, events, i))
            && (SameTurn(all, i) <==> SameTurn(events, i) && !e.MessageArrived? && !e.TurnBegan?)
            && (Dispatched(all, i) <==> Dispatched(events, i) || e.ToolsDispatched?)
  {
    var all := events + [e];
    assert all[..i] == events[..i];
    assert forall k | 0 <= k < |events| :: all[k] == events[k];
    assert all[|events|] == e;
    if SameTurn(all, i) { forall k | i < k < |events| ensures !events[k].MessageArrived? && !events[k].TurnBegan? { assert all[k] == events[k]; } }
    if Dispatched(events, i) { var k :| i < k < |events| && events[k].ToolsDispatched?; assert all[k].ToolsDispatched?; }
  }

  /** Whether the event starts a survey. */
  ghost predicate StartsSurvey(c: Setup, s: State, e: Event) {
    e.SpawnCalled? && IsSurvey(e.profile) && Spawn(c, s, Request(e.profile, e.continueFrom, None), e.launch).1.Started?
  }

  lemma {:induction false} StretchNext(c: Setup, events: seq<Event>, e: Event)
    ensures var all := events + [e];
            && (SurveysClosed(c, all) <==>
                  !e.MessageArrived? && !e.TurnBegan? && (SurveysClosed(c, events) || (SurveyPending(c, events) && e.ToolsDispatched?)))
            && (SurveyPending(c, all) <==>
                  StartsSurvey(c, Reached(c, events), e)
                  || (!e.MessageArrived? && !e.TurnBegan? && !e.ToolsDispatched? && SurveyPending(c, events)))
  {
    var all, n := events + [e], |events|;
    assert all[n] == e && all[..n] == events;
    assert SameTurn(all, n) && !Dispatched(all, n);
    assert SurveyStarted(c, all, n) <==> StartsSurvey(c, Reached(c, events), e);
    forall i: nat | i < n
      ensures SurveyStarted(c, all, i) <==> SurveyStarted(c, events, i)
      ensures SameTurn(all, i) <==> SameTurn(events, i) && !e.MessageArrived? && !e.TurnBegan?
      ensures Dispatched(all, i) <==> Dispatched(events, i) || e.ToolsDispatched?
    {
      OneEventOn(c, events, e, i);
    }
  }

  lemma {:induction false} PlaceOpens(t: State, p: Profile, owner: Option<Id>, launch: Launch)
    ensures var (u, reply) := Place(t, p, owner, launch);
            && u.surveyClosed == t.surveyClosed
            && u.surveyStarted == (t.surveyStarted || (IsSurvey(p) && reply.Started?))
  {
    var r := Reserve(t, p, owner);
    assert r.surveyClosed == t.surveyClosed && r.surveyStarted == t.surveyStarted;
  }

  /** A call that is not refused by the gate or the survey caps takes the retry, then the budget decides. */
  lemma {:induction false} SpawnPlaces(c: Setup, s: State, q: Request, launch: Launch)
    requires Gate(c, s, q).None? && !SurveyRefused(s, q.profile)
    ensures Spawn(c, s, q, launch) == (if LiveCount(s) >= c.budget then (TakeRetry(s, q.profile), Refused(BudgetExhausted))
                                       else Place(TakeRetry(s, q.profile), q.profile, OwnerOf(s, q), launch))
  {
    assert LiveCount(TakeRetry(s, q.profile)) == LiveCount(s);
  }

  lemma {:induction false} SpawnOpens(c: Setup, s: State, q: Request, launch: Launch)
    ensures var (t, reply) := Spawn(c, s, q, launch);
            && t.surveyClosed == s.surveyClosed
            && t.surveyStarted == (s.surveyStarted || (IsSurvey(q.profile) && reply.Started?))
  {
    if Gate(c, s, q).None? && !SurveyRefused(s, q.profile) {
      var t := TakeRetry(s, q.profile);
      assert t.surveyClosed == s.surveyClosed && t.surveyStarted == s.surveyStarted;
      SpawnPlaces(c, s, q, launch);
      PlaceOpens(t, q.profile, OwnerOf(s, q), launch);
    }
  }

  lemma {:induction false} ClosingOpens(c: Setup, s: State, id: Id, reviewer: Launch, tester: Launch)
    ensures var t := AfterClosing(c, s, id, reviewer, tester);
            t.surveyClosed == s.surveyClosed && t.surveyStarted == s.surveyStarted
  {
    if id in s.children && s.children[id].phase.Closing? {
      var q := Request(Reviewer, None, Some(id));
      SpawnOpens(c, s, q, reviewer);
      SpawnOpens(c, Spawn(c, s, q, reviewer).0, Request(Tester, None, Some(id)), tester);
    }
  }

  lemma {:induction false} StepOpens(c: Setup, s: State, e: Event)
    ensures var t := Next(c, s, e);
            && (t.surveyClosed <==>
                  !e.MessageArrived? && !e.TurnBegan? && (s.surveyClosed || (s.surveyStarted && e.ToolsDispatched?)))
            && (t.surveyStarted <==>
                  StartsSurvey(c, s, e) || (!e.MessageArrived? && !e.TurnBegan? && !e.ToolsDispatched? && s.surveyStarted))
  {
    match e
    case SpawnCalled(p, from, launch) => SpawnOpens(c, s, Request(p, from, None), launch);
    case PageClosed(id, reviewer, tester) => ClosingOpens(c, s, id, reviewer, tester);
    case _ =>
  }

  /** Over every run: surveys are closed if and only if, since the last user message or turn, a survey has
      started and the tools of a reply have been dispatched after it. */
  lemma {:induction false} SurveysClosedIff(c: Setup, events: seq<Event>)
    ensures Reached(c, events).surveyClosed <==> SurveysClosed(c, events)
    ensures Reached(c, events).surveyStarted <==> SurveyPending(c, events)
  {
    if events != [] {
      var front, e := events[..|events| - 1], events[|events| - 1];
      assert events == front + [e];
      SurveysClosedIff(c, front);
      StretchNext(c, front, e);
      StepOpens(c, Reached(c, front), e);
    }
  }

  /** Until the next message or turn every survey asked for is refused. */
  lemma {:induction false} ClosedSurveysAreRefused(c: Setup, events: seq<Event>, p: Profile, from: Option<Id>, launch: Launch)
    requires IsSurvey(p) && SurveysClosed(c, events)
    ensures var (t, reply) := Spawn(c, Reached(c, events), Request(p, from, None), launch);
            && t == Reached(c, events) && reply.Refused?
            && (p in c.profiles && from.None? ==> reply == Refused(AlreadySurveyed))
  {
    SurveysClosedIff(c, events);
  }

  /** How many surveys of a profile one message may start, and one turn that only brings reports. */
  function SurveysAllowed(p: Profile, inbox: bool): nat {
    if p.Ask? && !inbox then 3 else 1
  }

  /** A turn opens surveys again: one is refused then only for want of a profile or a budget, or because
      the message has used up what it allows and no retry is left. */
  lemma {:induction false} TurnOpensSurveys(c: Setup, events: seq<Event>, inbox: bool, p: Profile, launch: Launch)
    requires IsSurvey(p)
    ensures var s := Reached(c, events + [TurnBegan(inbox)]);
            Spawn(c, s, Request(p, None, None), launch).1.Started? <==>
            && launch.Starts? && p in c.profiles && |Live(s.children)| < c.budget
            && (SurveyStarts(c, events, p) < SurveysAllowed(p, inbox) || p in s.retry)
  {
    var all := events + [TurnBegan(inbox)];
    ReachedNext(c, events, TurnBegan(inbox));
    StartsAreCounted(c, events, p);
    EveryRunIsSafe(c, all);
    StartsIff(c, Reached(c, all), Request(p, None, None), launch);
  }

  /** A user message opens them too, and forgets how many there were. */
  lemma {:induction false} MessageOpensSurveys(c: Setup, events: seq<Event>, p: Profile, launch: Launch)
    requires IsSurvey(p)
    ensures var s := Reached(c, events + [MessageArrived]);
            Spawn(c, s, Request(p, None, None), launch).1.Started? <==>
            launch.Starts? && p in c.profiles && |Live(s.children)| < c.budget
  {
    var all := events + [MessageArrived];
    ReachedNext(c, events, MessageArrived);
    EveryRunIsSafe(c, all);
    StartsIff(c, Reached(c, all), Request(p, None, None), launch);
  }

  /****** The one retry, read off the events ******/

  /** No user message has come since. */
  ghost predicate SameMessage(events: seq<Event>, i: nat) {
    forall k | i < k < |events| :: !events[k].MessageArrived?
  }

  /** A survey of the profile came back without a result at `i`. */
  ghost predicate CameBackIncomplete(c: Setup, events: seq<Event>, p: Profile, i: nat) {
    && i < |events| && events[i].RunEnded? && events[i].status.Incomplete?
    && var children := Reached(c, events[..i]).children;
       events[i].id in children && children[events[i].id] == Child(p, Running)
  }

  /** A survey of the profile was asked for at `i` that the caps alone would have refused, and was not. */
  ghost predicate WentOverCap(c: Setup, events: seq<Event>, p: Profile, i: nat) {
    && i < |events| && events[i].SpawnCalled? && events[i].profile == p
    && var s := Reached(c, events[..i]);
       && SurveyStarts(c, events[..i], p) >= SurveysAllowed(p, s.inboxTurn)
       && Spawn(c, s, Request(p, events[i].continueFrom, None), events[i].launch).1
          in {Started(s.issued), Refused(BudgetExhausted), Refused(LaunchFailed)}
  }

  ghost predicate Earned(c: Setup, events: seq<Event>, p: Profile) {
    exists i :: CameBackIncomplete(c, events, p, i) && SameMessage(events, i)
  }

  ghost predicate Spent(c: Setup, events: seq<Event>, p: Profile) {
    exists i :: WentOverCap(c, events, p, i) && SameMessage(events, i)
  }

  lemma {:induction false} MessageOn(events: seq<Event>, e: Event, i: nat)
    requires i < |events|
    ensures SameMessage(events + [e], i) <==> SameMessage(events, i) && !e.MessageArrived?
    ensures (events + [e])[i] == events[i] && (events + [e])[..i] == events[..i]
  {
    var all := events + [e];
    assert forall k | 0 <= k < |events| :: all[k] == events[k];
    assert all[|events|] == e;
    if SameMessage(all, i) { forall k | i < k < |events| ensures !events[k].MessageArrived? { assert all[k] == events[k]; } }
  }

  ghost predicate EarnsNow(s: State, e: Event, p: Profile) {
    e.RunEnded? && e.status.Incomplete? && e.id in s.children && s.children[e.id] == Child(p, Running)
  }

  ghost predicate SpendsNow(c: Setup, s: State, starts: nat, e: Event, p: Profile) {
    && e.SpawnCalled? && e.profile == p && starts >= SurveysAllowed(p, s.inboxTurn)
    && Spawn(c, s, Request(p, e.continueFrom, None), e.launch).1 in {Started(s.issued), Refused(BudgetExhausted), Refused(LaunchFailed)}
  }

  lemma {:induction false} RetryNext(c: Setup, events: seq<Event>, e: Event, p: Profile)
    ensures Earned(c, events + [e], p) <==>
            EarnsNow(Reached(c, events), e, p) || (Earned(c, events, p) && !e.MessageArrived?)
    ensures Spent(c, events + [e], p) <==>
            SpendsNow(c, Reached(c, events), SurveyStarts(c, events, p), e, p) || (Spent(c, events, p) && !e.MessageArrived?)
  {
    var all, n := events + [e], |events|;
    assert all[n] == e && all[..n] == events && SameMessage(all, n);
    assert CameBackIncomplete(c, all, p, n) <==> EarnsNow(Reached(c, events), e, p);
    assert WentOverCap(c, all, p, n) <==> SpendsNow(c, Reached(c, events), SurveyStarts(c, events, p), e, p);
    forall i: nat | i < n
      ensures SameMessage(all, i) <==> SameMessage(events, i) && !e.MessageArrived?
      ensures CameBackIncomplete(c, all, p, i) <==> CameBackIncomplete(c, events, p, i)
      ensures WentOverCap(c, all, p, i) <==> WentOverCap(c, events, p, i)
    {
      MessageOn(events, e, i);
    }
  }

  lemma {:induction false} SpawnRetries(c: Setup, s: State, p: Profile, from: Option<Id>, launch: Launch, q: Profile)
    requires Inv(c, s) && IsSurvey(q)
    ensures var (t, reply) := Spawn(c, s, Request(p, from, None), launch);
            var over := p == q && SpawnsOf(s, p) >= SurveyCap(s, p)
                        && reply in {Started(s.issued), Refused(BudgetExhausted), Refused(LaunchFailed)};
            && (q in t.retryUsed <==> q in s.retryUsed || over)
            && (q in t.retry <==> q in s.retry && !over)
  {
    var r := Request(p, from, None);
    if Gate(c, s, r).None? && !SurveyRefused(s, p) {
      SpawnPlaces(c, s, r, launch);
      PlaceRetries(TakeRetry(s, p), p, OwnerOf(s, r), launch);
      RetryTaken(s, p, q);
    } else if Gate(c, s, r).Some? {
      GateNames(c, s, r);
    }
  }

  lemma {:induction false} RetryTaken(s: State, p: Profile, q: Profile)
    requires IsSurvey(q)
    ensures var t, over := TakeRetry(s, p), p == q && SpawnsOf(s, p) >= SurveyCap(s, p);
            t.issued == s.issued && (q in t.retryUsed <==> q in s.retryUsed || over) && (q in t.retry <==> q in s.retry && !over)
  {
  }

  lemma {:induction false} GateNames(c: Setup, s: State, q: Request)
    requires Gate(c, s, q).Some?
    ensures !Gate(c, s, q).value.BudgetExhausted? && !Gate(c, s, q).value.LaunchFailed?
  {
  }

  lemma {:induction false} PlaceRetries(t: State, p: Profile, owner: Option<Id>, launch: Launch)
    ensures var (u, reply) := Place(t, p, owner, launch);
            u.retry == t.retry && u.retryUsed == t.retryUsed && reply in {Started(t.issued), Refused(LaunchFailed)}
  {
    var r := Reserve(t, p, owner);
    assert r.retry == t.retry && r.retryUsed == t.retryUsed;
  }

  lemma {:induction false} OtherSpawnRetries(c: Setup, s: State, q: Request, launch: Launch)
    requires !IsSurvey(q.profile)
    ensures Spawn(c, s, q, launch).0.retry == s.retry && Spawn(c, s, q, launch).0.retryUsed == s.retryUsed
  {
    if Gate(c, s, q).None? && LiveCount(s) < c.budget {
      assert TakeRetry(s, q.profile) == s;
      assert Spawn(c, s, q, launch) == Place(s, q.profile, OwnerOf(s, q), launch);
      PlaceRetries(s, q.profile, OwnerOf(s, q), launch);
    }
  }

  lemma {:induction false} ClosingRetries(c: Setup, s: State, id: Id, reviewer: Launch, tester: Launch)
    ensures AfterClosing(c, s, id, reviewer, tester).retry == s.retry
    ensures AfterClosing(c, s, id, reviewer, tester).retryUsed == s.retryUsed
  {
    if id in s.children && s.children[id].phase.Closing? {
      var q := Request(Reviewer, None, Some(id));
      OtherSpawnRetries(c, s, q, reviewer);
      OtherSpawnRetries(c, Spawn(c, s, q, reviewer).0, Request(Tester, None, Some(id)), tester);
    }
  }

  lemma {:induction false} FinishRetries(s: State, id: Id, status: Status, files: set<Path>, q: Profile)
    requires IsSurvey(q)
    ensures var t := FinishRun(s, id, status, files);
            && t.retryUsed == s.retryUsed
            && (q in t.retry <==> q in s.retry || (EarnsNow(s, RunEnded(id, status, files), q) && q !in s.retryUsed))
  {
    if id in s.children && s.children[id].phase.Running? {
      var p := s.children[id].profile;
      var touched := Touched(s, p, files);
      RunRetries(s, id, p, status, touched, q);
      var r := Release(RecordRun(s, id, p, status, touched), id);
      assert FinishRun(s, id, status, files).retry == r.retry && FinishRun(s, id, status, files).retryUsed == r.retryUsed;
      assert EarnsNow(s, RunEnded(id, status, files), q) <==> status.Incomplete? && p == q;
    }
  }

  lemma {:induction false} RunRetries(s: State, id: Id, p: Profile, status: Status, touched: set<Path>, q: Profile)
    requires IsSurvey(q)
    ensures var t := Release(RecordRun(s, id, p, status, touched), id);
            && t.retryUsed == s.retryUsed
            && (q in t.retry <==> q in s.retry || (status.Incomplete? && p == q && q !in s.retryUsed))
  {
    var recorded := RecordRun(s, id, p, status, touched);
    assert Release(recorded, id).retry == recorded.retry && Release(recorded, id).retryUsed == recorded.retryUsed;
  }

  lemma {:induction false} StepRetries(c: Setup, s: State, e: Event, starts: nat, q: Profile)
    requires Inv(c, s) && IsSurvey(q) && SpawnsOf(s, q) == starts
    ensures var t, spends := Next(c, s, e), SpendsNow(c, s, starts, e, q);
            && (q in t.retryUsed <==> !e.MessageArrived? && (q in s.retryUsed || spends))
            && (q in t.retry <==> !e.MessageArrived? && !spends && (q in s.retry || (EarnsNow(s, e, q) && q !in s.retryUsed)))
  {
    match e
    case SpawnCalled(p, from, launch) => SpawnRetries(c, s, p, from, launch, q);
    case RunEnded(id, status, files) => FinishRetries(s, id, status, files, q);
    case PageClosed(id, reviewer, tester) => ClosingRetries(c, s, id, reviewer, tester);
    case _ =>
  }

  /** Over every run: since the last user message, the retry of a survey profile has been used exactly when a
      survey over its cap was let through, and it is there exactly when one has come back incomplete and it
      has not been used. */
  lemma {:induction false} RetryIff(c: Setup, events: seq<Event>, p: Profile)
    requires IsSurvey(p)
    ensures p in Reached(c, events).retryUsed <==> Spent(c, events, p)
    ensures p in Reached(c, events).retry <==> Earned(c, events, p) && !Spent(c, events, p)
  {
    if events != [] {
      var front, e := events[..|events| - 1], events[|events| - 1];
      assert events == front + [e];
      RetryIff(c, front, p);
      RetryNext(c, front, e, p);
      EveryRunIsSafe(c, front);
      StartsAreCounted(c, front, p);
      StepRetries(c, Reached(c, front), e, SurveyStarts(c, front, p), p);
      RetryIsBarred(c, front, e, p);
    }
  }

  /** A survey lets the retry go only if there is one, and none is earned in the same step. */
  lemma {:induction false} RetryIsBarred(c: Setup, events: seq<Event>, e: Event, p: Profile)
    requires IsSurvey(p)
    ensures var s := Reached(c, events);
            SpendsNow(c, s, SurveyStarts(c, events, p), e, p) ==> p in s.retry && !EarnsNow(s, e, p)
  {
    StartsAreCounted(c, events, p);
  }

  /****** Who may be continued, and under whom a verifier is filed ******/

  /** Every child that writes is recorded as a writer's run, and nothing else is. */
  ghost predicate WritersRecorded(s: State) {
    Recorded(s.writerRuns, s.children, s.issued)
  }

  ghost predicate Recorded(runs: map<Id, Profile>, children: map<Id, Child>, issued: nat) {
    && (forall i | i in runs :: i < issued && (runs[i].Coder? || runs[i].Tester?))
    && (forall i | i in children ::
          if children[i].profile.Coder? || children[i].profile.Tester?
          then i in runs && runs[i] == children[i].profile else i !in runs)
  }

  lemma {:induction false} PlaceRecords(t: State, p: Profile, owner: Option<Id>, launch: Launch)
    requires WritersRecorded(t) && Fresh(t)
    ensures WritersRecorded(Place(t, p, owner, launch).0)
  {
    var r := Reserve(t, p, owner);
    assert r.writerRuns == t.writerRuns && r.children == t.children && r.issued == t.issued + 1;
    WriterEnters(r, t.issued, p);
    var u := Unreserve(r, t.issued, p, launch);
    assert u.writerRuns == r.writerRuns && u.children == r.children && u.issued == r.issued;
  }

  lemma {:induction false} WriterEnters(r: State, id: Id, p: Profile)
    requires WritersRecorded(r) && id < r.issued && id !in r.children && id !in r.writerRuns
    ensures WritersRecorded(Enter(r, id, p))
  {
    var u := Enter(r, id, p);
    assert u.issued == r.issued && u.children == r.children[id := Child(p, Running)];
    assert u.writerRuns == if IsWriter(p) then r.writerRuns[id := p] else r.writerRuns;
  }

  lemma {:induction false} SpawnRecords(c: Setup, s: State, q: Request, launch: Launch)
    requires WritersRecorded(s) && Fresh(s)
    ensures WritersRecorded(Spawn(c, s, q, launch).0)
  {
    if Gate(c, s, q).None? && !SurveyRefused(s, q.profile) {
      var t := TakeRetry(s, q.profile);
      assert t.writerRuns == s.writerRuns && t.children == s.children && t.issued == s.issued && t.verifyOwner == s.verifyOwner;
      if LiveCount(t) < c.budget {
        PlaceRecords(t, q.profile, OwnerOf(s, q), launch);
        assert Spawn(c, s, q, launch) == Place(t, q.profile, OwnerOf(s, q), launch);
      }
    }
  }

  lemma {:induction false} MovedRecords(s: State, t: State)
    requires WritersRecorded(s) && t.writerRuns == s.writerRuns && t.issued == s.issued
    requires forall i | i in t.children :: i in s.children && t.children[i].profile == s.children[i].profile
    ensures WritersRecorded(t)
  {
  }

  lemma {:induction false} ClosingRecords(c: Setup, s: State, id: Id, reviewer: Launch, tester: Launch)
    requires Inv(c, s) && WritersRecorded(s) && id in s.children && s.children[id].phase.Closing?
    ensures WritersRecorded(AfterClosing(c, s, id, reviewer, tester))
  {
    var Child(p, Closing(files, verify)) := s.children[id];
    var q, q2 := Request(Reviewer, None, Some(id)), Request(Tester, None, Some(id));
    SpawnRecords(c, s, q, reviewer);
    SpawnKeeps(c, s, q, reviewer);
    SpawnRecords(c, Spawn(c, s, q, reviewer).0, q2, tester);
    VerificationKeeps(c, s, id, files, reviewer, tester);
    var r := if verify && !s.aborting then StartVerification(c, s, id, files, reviewer, tester).0 else s;
    assert WritersRecorded(r) && r.children[id] == s.children[id];
    var t := AfterClosing(c, s, id, reviewer, tester);
    assert t.writerRuns == r.writerRuns && t.issued == r.issued;
    assert t.children == if s.aborting then r.children - {id} else r.children[id := Child(p, Reporting)];
    MovedRecords(r, t);
  }

  /** Over every run the runs recorded are those of coders and testers, so only these can be continued. */
  lemma {:induction false} WritersAreRecorded(c: Setup, events: seq<Event>)
    ensures WritersRecorded(Reached(c, events))
  {
    if events != [] {
      var front := events[..|events| - 1];
      var s, t := Reached(c, front), Reached(c, events);
      WritersAreRecorded(c, front);
      EveryRunIsSafe(c, front);
      match events[|events| - 1]
      case SpawnCalled(p, from, launch) => SpawnRecords(c, s, Request(p, from, None), launch);
      case PageClosed(id, reviewer, tester) =>
        if id in s.children && s.children[id].phase.Closing? { ClosingRecords(c, s, id, reviewer, tester); }
      case _ => MovedRecords(s, t);
    }
  }

  /** A verifier that starts is filed under the owner it was given, or else, if it continues no other run,
      under the last coder; no other child is filed. */
  lemma {:induction false} FiledIff(c: Setup, s: State, q: Request, launch: Launch)
    requires Fresh(s) && Spawn(c, s, q, launch).1.Started?
    ensures var t := Spawn(c, s, q, launch).0;
            var owner := if q.verifyOwner.Some? then q.verifyOwner
                         else if (q.profile.Tester? || q.profile.Reviewer?) && q.continueFrom.None? then s.lastCoder
                         else None;
            t.verifyOwner == if owner.Some? then s.verifyOwner[s.issued := owner.value] else s.verifyOwner
  {
    assert Gate(c, s, q).None? && !SurveyRefused(s, q.profile);
    SpawnPlaces(c, s, q, launch);
    var t := TakeRetry(s, q.profile);
    assert t.verifyOwner == s.verifyOwner && t.issued == s.issued;
    PlaceFiles(t, q.profile, OwnerOf(s, q), launch);
  }

  lemma {:induction false} PlaceFiles(t: State, p: Profile, owner: Option<Id>, launch: Launch)
    requires Place(t, p, owner, launch).1.Started?
    ensures Place(t, p, owner, launch).0.verifyOwner
            == if owner.Some? then t.verifyOwner[t.issued := owner.value] else t.verifyOwner
  {
    assert Reserve(t, p, owner).verifyOwner
           == if owner.Some? then t.verifyOwner[t.issued := owner.value] else t.verifyOwner;
  }

  /** A refusal names a reason that holds. */
  ghost predicate Holds(c: Setup, s: State, q: Request, launch: Launch, why: Refusal) {
    var p, from := q.profile, q.continueFrom;
    match why
    case UnknownProfile => p !in c.profiles
    case VerifiersRunning => q.verifyOwner.None? && (p.Tester? || p.Reviewer?) && s.verifying != map[]
    case StillVerifying => (from.Some? && from.value in s.verifying) || (p.Coder? && s.verifying != map[])
    case CoderRunning => p.Coder? && CoderIsLive(s)
    case StillRunning => from.Some? && IsLive(s, from.value)
    case NotAWriter => from.Some? && !p.Coder? && !p.Tester?
    case NoSuchWriter => from.Some? && from.value !in s.writerRuns
    case NoCoderToVerify =>
      && (q.verifyOwner.Some? || s.lastCoder.Some?)
      && var owner := if q.verifyOwner.Some? then q.verifyOwner.value else s.lastCoder.value;
         owner !in s.writerRuns || s.writerRuns[owner] != Coder
    case AlreadySurveyed => (p.Ask? || p.Researcher?) && (s.surveyClosed || p !in s.retry)
    case BudgetExhausted => LiveCount(s) >= c.budget
    case LaunchFailed => !launch.Starts?
  }

  lemma {:induction false} RefusalHolds(c: Setup, s: State, q: Request, launch: Launch)
    requires Spawn(c, s, q, launch).1.Refused?
    ensures Holds(c, s, q, launch, Spawn(c, s, q, launch).1.why)
  {
    if Gate(c, s, q).None? && !SurveyRefused(s, q.profile) { SpawnPlaces(c, s, q, launch); }
  }

  /****** The end of a child ******/

  /** Only the finished work of a coder is verified: any other end leaves gate and ledger as they are. */
  lemma {:induction false} OnlyFinishedWorkIsVerified(c: Setup, s: State, id: Id, status: Status, files: set<Path>, reviewer: Launch, tester: Launch)
    requires id in s.children && s.children[id].phase.Running?
    ensures var done := FinishRun(s, id, status, files);
            var t := AfterClosing(c, done, id, reviewer, tester);
            && (!status.Finished? || !s.children[id].profile.Coder? || s.aborting ==>
                  t.verifying == done.verifying && t.verifyOwner == done.verifyOwner && t.unverified == done.unverified)
            && (status.Finished? && s.children[id].profile.Coder? && !s.aborting && files != {} ==>
                  t.unverified == StartVerification(c, done, id, files + AllFiles(s.unverified), reviewer, tester).0.unverified)
  {
  }

  /** A child that is closing reports next; while everything is aborted it leaves at once. */
  lemma {:induction false} ClosingLeaves(c: Setup, s: State, id: Id, reviewer: Launch, tester: Launch)
    requires id in s.children && s.children[id].phase.Closing?
    ensures var t := AfterClosing(c, s, id, reviewer, tester);
            if s.aborting then t.children == s.children - {id}
            else id in t.children && t.children[id] == Child(s.children[id].profile, Reporting)
  {
  }

  /** A cancellation before the first step, or at one of the last two awaits, ends the child and changes
      nothing else. */
  lemma {:induction false} CancelEnds(c: Setup, s: State, id: Id)
    requires id in s.children
    ensures var e := if s.children[id].phase == Running then CancelledEarly(id) else CancelledLate(id);
            Next(c, s, e) == s.(children := s.children[id := Child(s.children[id].profile, Done)])
  {
    assert s.children[id := s.children[id]] == s.children;
  }

  /****** The ledger of unverified work ******/

  /** A verifier of profile `p` for `owner` that was not there before. */
  ghost predicate Assigned(s: State, t: State, owner: Id, p: Profile) {
    exists i :: i !in s.children && i in t.children && t.children[i] == Child(p, Running)
                && i in t.verifyOwner && t.verifyOwner[i] == owner
  }

  /** A reviewer has been started on the files, and a tester unless all of them are documentation. */
  ghost predicate Covered(c: Setup, s: State, t: State, owner: Id, files: set<Path>) {
    && Assigned(s, t, owner, Reviewer)
    && ((files != {} && forall f | f in files :: c.isDoc(f)) || Assigned(s, t, owner, Tester))
  }

  /** The files finished coders have touched since a verification that covers them was started. */
  ghost function Owed(c: Setup, events: seq<Event>): set<Path> {
    if events == [] then {}
    else
      var front := events[..|events| - 1];
      var s, before := Reached(c, front), Owed(c, front);
      match events[|events| - 1]
      case RunEnded(id, _, files) =>
        if id in s.children && s.children[id] == Child(Coder, Running) then before + files else before
      case PageClosed(id, _, _) =>
        if id in s.children && s.children[id].phase.Closing?
           && Covered(c, s, Reached(c, events), id, s.children[id].phase.files)
        then before - s.children[id].phase.files else before
      case _ => before
  }

  /** Every owed file is in the ledger, and a coder about to be verified carries the whole ledger. */
  ghost predicate LedgerKept(s: State, owed: set<Path>) {
    && owed <= AllFiles(s.unverified)
    && forall i | i in s.children && s.children[i].phase.Closing? ::
         if s.children[i].profile.Coder? then AllFiles(s.unverified) <= s.children[i].phase.files
         else !s.children[i].phase.verify
  }

  lemma {:induction false} FilesOfUpdate(ledger: map<Id, set<Path>>, id: Id, files: set<Path>)
    requires AllFiles(ledger) <= files
    ensures AllFiles(ledger[id := files]) == files
  {
    var after := ledger[id := files];
    assert forall f | f in files :: id in after && f in after[id];
    forall f | f in AllFiles(after) ensures f in files {
      var i :| i in after && f in after[i];
      if i != id { assert f in AllFiles(ledger); }
    }
  }

  /** The end of a coder's run keeps the ledger exactly when no other coder waits for its verification
      with a list that misses one of the new files. */
  lemma {:induction false} FinishKeepsLedgerIff(s: State, id: Id, status: Status, files: set<Path>, owed: set<Path>)
    requires LedgerKept(s, owed) && id in s.children && s.children[id] == Child(Coder, Running)
    ensures LedgerKept(FinishRun(s, id, status, files), owed + files) <==>
            forall i | i in s.children && i != id && s.children[i].phase.Closing? && s.children[i].profile.Coder? ::
              files <= s.children[i].phase.files
  {
    var t := FinishRun(s, id, status, files);
    var touched := Touched(s, Coder, files);
    if touched != {} { FilesOfUpdate(s.unverified, id, touched); }
    assert AllFiles(t.unverified) == touched == files + AllFiles(s.unverified);
    forall i | i in s.children && i != id ensures t.children[i] == s.children[i] {}
  }

  lemma {:induction false} FinishKeepsLedger(c: Setup, s: State, id: Id, status: Status, files: set<Path>, owed: set<Path>)
    requires Inv(c, s) && LedgerKept(s, owed) && id in s.children && s.children[id].phase.Running?
    ensures LedgerKept(FinishRun(s, id, status, files), if s.children[id].profile.Coder? then owed + files else owed)
  {
    var t := FinishRun(s, id, status, files);
    if s.children[id].profile.Coder? {
      FinishKeepsLedgerIff(s, id, status, files, owed);
      assert LiveCoder(s.children, id);
      forall i | i in s.children && s.children[i].phase.Closing? && s.children[i].profile.Coder? ensures LiveCoder(s.children, i) {}
    } else {
      assert t.unverified == s.unverified;
    }
  }

  lemma {:induction false} StartedIsAssigned(c: Setup, s: State, owner: Id, p: Profile, launch: Launch)
    requires Inv(c, s) && IsVerifier(p)
    ensures var (t, reply) := Spawn(c, s, Request(p, None, Some(owner)), launch);
            reply.Started? ==> reply.id == s.issued && reply.id in t.verifyOwner && t.verifyOwner[reply.id] == owner
  {
  }

  lemma {:induction false} PlaceFiling(t: State, p: Profile, owner: Option<Id>, launch: Launch)
    requires Fresh(t) && Filed(t.verifying, t.verifyOwner)
    ensures forall i | i in t.verifyOwner ::
              var u := Place(t, p, owner, launch).0;
              i in u.verifyOwner && u.verifyOwner[i] == t.verifyOwner[i]
  {
    if owner.Some? { WithdrawnIsUndone(t.verifying, t.verifyOwner, owner.value, t.issued); }
  }

  lemma {:induction false} FilingStays(c: Setup, s: State, q: Request, launch: Launch, i: Id)
    requires Inv(c, s) && i in s.verifyOwner
    ensures var t := Spawn(c, s, q, launch).0;
            i in t.verifyOwner && t.verifyOwner[i] == s.verifyOwner[i]
  {
    if Gate(c, s, q).None? && !SurveyRefused(s, q.profile) {
      var t := TakeRetry(s, q.profile);
      assert t.verifyOwner == s.verifyOwner && t.verifying == s.verifying;
      if LiveCount(t) < c.budget {
        PlaceFiling(t, q.profile, OwnerOf(s, q), launch);
        assert Spawn(c, s, q, launch) == Place(t, q.profile, OwnerOf(s, q), launch);
      }
    }
  }

  /** When the engine reports that all verifiers started, they are there. */
  lemma {:induction false} AllStartedIsCovered(c: Setup, s: State, owner: Id, files: set<Path>, reviewer: Launch, tester: Launch)
    requires Inv(c, s) && StartVerification(c, s, owner, files, reviewer, tester).1
    ensures Covered(c, s, StartVerification(c, s, owner, files, reviewer, tester).0, owner, files)
  {
    var q := Request(Reviewer, None, Some(owner));
    var (s1, r1) := Spawn(c, s, q, reviewer);
    SpawnFrame(c, s, q, reviewer);
    SpawnKeeps(c, s, q, reviewer);
    StartedIsAssigned(c, s, owner, Reviewer, reviewer);
    assert r1.Started?;
    assert Assigned(s, s1, owner, Reviewer) by { assert s1.children[r1.id] == Child(Reviewer, Running); }
    if !DocsOnly(c, files) {
      var q2 := Request(Tester, None, Some(owner));
      var (s2, r2) := Spawn(c, s1, q2, tester);
      SpawnFrame(c, s1, q2, tester);
      StartedIsAssigned(c, s1, owner, Tester, tester);
      FilingStays(c, s1, q2, tester, r1.id);
      assert Assigned(s, s2, owner, Reviewer) by { assert s2.children[r1.id] == Child(Reviewer, Running); }
      assert Assigned(s, s2, owner, Tester) by { assert s2.children[r2.id] == Child(Tester, Running); }
    }
  }

  lemma {:induction false} FilesStay(s: State, r: State, id: Id)
    requires Fresh(s) && Extends(s.children, r.children)
    requires forall i | i in r.children && i !in s.children :: r.children[i].phase.Running?
    requires OneCoder(s.children) && id in s.children && s.children[id].phase.Closing? && s.children[id].profile.Coder?
    ensures forall i | i in r.children && r.children[i].phase.Closing? && r.children[i].profile.Coder? :: i == id
  {
    forall i | i in r.children && r.children[i].phase.Closing? && r.children[i].profile.Coder? ensures i == id {
      assert LiveCoder(s.children, i) && LiveCoder(s.children, id);
    }
  }

  lemma {:induction false} VerifyKeepsLedger(c: Setup, s: State, id: Id, reviewer: Launch, tester: Launch, owed: set<Path>)
    requires Inv(c, s) && LedgerKept(s, owed)
    requires id in s.children && s.children[id].phase.Closing? && s.children[id].profile.Coder?
    ensures var files := s.children[id].phase.files;
            var (t, all) := StartVerification(c, s, id, files, reviewer, tester);
            AllFiles(t.unverified) <= files && (if all then owed <= files else owed <= AllFiles(t.unverified))
  {
    var files := s.children[id].phase.files;
    VerificationKeeps(c, s, id, files, reviewer, tester);
    FilesOfUpdate(s.unverified, id, files);
  }

  lemma {:induction false} OtherClosing(s: State, t: State, id: Id, owed: set<Path>)
    requires LedgerKept(s, owed) && t.unverified == s.unverified
    requires forall i | i in t.children && t.children[i].phase.Closing? :: i in s.children && t.children[i] == s.children[i]
    ensures LedgerKept(t, owed)
  {
  }

  lemma {:induction false} ClosingKeepsLedger(c: Setup, s: State, id: Id, reviewer: Launch, tester: Launch, owed: set<Path>)
    requires Inv(c, s) && LedgerKept(s, owed) && id in s.children && s.children[id].phase.Closing?
    ensures var t, files := AfterClosing(c, s, id, reviewer, tester), s.children[id].phase.files;
            LedgerKept(t, if Covered(c, s, t, id, files) then owed - files else owed)
  {
    var Child(p, Closing(files, verify)) := s.children[id];
    var t := AfterClosing(c, s, id, reviewer, tester);
    if verify && !s.aborting {
      var (r, all) := StartVerification(c, s, id, files, reviewer, tester);
      VerifyKeepsLedger(c, s, id, reviewer, tester, owed);
      VerificationKeeps(c, s, id, files, reviewer, tester);
      FilesStay(s, r, id);
      assert t == r.(children := r.children[id := Child(p, Reporting)]);
      assert t.unverified == r.unverified;
      if all {
        AllStartedIsCovered(c, s, id, files, reviewer, tester);
        CoveredIgnoresPhase(c, s, r, t, id, files);
      }
    } else {
      OtherClosing(s, t, id, owed);
    }
  }

  lemma {:induction false} CoveredIgnoresPhase(c: Setup, s: State, r: State, t: State, id: Id, files: set<Path>)
    requires Covered(c, s, r, id, files) && id in s.children
    requires t.verifyOwner == r.verifyOwner && forall i | i in r.children && i != id :: i in t.children && t.children[i] == r.children[i]
    ensures Covered(c, s, t, id, files)
  {
    forall p | Assigned(s, r, id, p) ensures Assigned(s, t, id, p) {
      var i :| i !in s.children && i in r.children && r.children[i] == Child(p, Running)
               && i in r.verifyOwner && r.verifyOwner[i] == id;
      assert t.children[i] == Child(p, Running);
    }
  }

  /**
   Over every run, a file touched by a finished coder stays in the ledger until a reviewer whose task
   lists it is running, with a tester beside it unless the whole list is documentation.
   */
  lemma {:induction false} LedgerHoldsOwedFiles(c: Setup, events: seq<Event>)
    ensures LedgerKept(Reached(c, events), Owed(c, events))
  {
    if events != [] {
      var front := events[..|events| - 1];
      var s, t := Reached(c, front), Reached(c, events);
      LedgerHoldsOwedFiles(c, front);
      EveryRunIsSafe(c, front);
      match events[|events| - 1]
      case SpawnCalled(p, from, launch) =>
        SpawnFrame(c, s, Request(p, from, None), launch);
        OtherClosing(s, t, 0, Owed(c, front));
      case RunEnded(id, status, files) =>
        if id in s.children && s.children[id].phase.Running? { FinishKeepsLedger(c, s, id, status, files, Owed(c, front)); }
      case PageClosed(id, reviewer, tester) =>
        if id in s.children && s.children[id].phase.Closing? { ClosingKeepsLedger(c, s, id, reviewer, tester, Owed(c, front)); }
      case _ => OtherClosing(s, t, 0, Owed(c, front));
    }
  }

  /****** Why there is one coder ******/

  /** A verifier asked for by the engine starts when there is room. */
  lemma {:induction false} OwnedVerifierStarts(c: Setup, s: State, owner: Id, p: Profile)
    requires IsVerifier(p) && p in c.profiles && Fresh(s) && s.reserved == map[] && |Live(s.children)| < c.budget
    requires owner in s.writerRuns && s.writerRuns[owner].Coder? && owner < s.issued
    ensures var (t, reply) := Spawn(c, s, Request(p, None, Some(owner)), Starts);
            && reply == Started(s.issued) && t.issued == s.issued + 1 && t.reserved == map[] && t.unverified == s.unverified
            && t.children == s.children[s.issued := Child(p, Running)]
            && t.verifyOwner == s.verifyOwner[s.issued := owner]
            && owner in t.writerRuns && t.writerRuns[owner].Coder?
  {
    var q := Request(p, None, Some(owner));
    assert Gate(c, s, q) == None && LiveCount(s) < c.budget;
    assert Spawn(c, s, q, Starts) == Place(s, p, Some(owner), Starts);
    NoneLeft(s.issued, p);
  }

  const TWO_CODERS := INITIAL.(children := map[0 := Child(Coder, Running), 1 := Child(Coder, Running)], issued := 2,
                               writerRuns := map[0 := Coder, 1 := Coder], lastCoder := Some(1))

  /** All that the invariant says besides the single coder. */
  ghost predicate AllButOneCoder(c: Setup, s: State) {
    Fresh(s) && Filed(s.verifying, s.verifyOwner) && Behind(s.children, s.verifyOwner) && WithinBudget(c, s) && SurveysCapped(s)
  }

  function TwoClosing(a: set<Path>, b: set<Path>): State {
    TWO_CODERS.(children := map[0 := Child(Coder, Closing(a, true)), 1 := Child(Coder, Closing(a + b, true))],
                unverified := map[0 := a, 1 := a + b])
  }

  lemma {:induction false} TwoCodersFinish(a: set<Path>, b: set<Path>)
    requires a != {}
    ensures FinishRun(FinishRun(TWO_CODERS, 0, Finished, a), 1, Finished, b) == TwoClosing(a, b)
  {
    var s := FinishRun(TWO_CODERS, 0, Finished, a);
    var none: map<Id, set<Path>> := map[];
    assert AllFiles(none) == {};
    assert a + {} == a && Touched(TWO_CODERS, Coder, a) == a;
    assert s.unverified == map[0 := a];
    FilesOfUpdate(none, 0, a);
    assert AllFiles(s.unverified) == a;
    assert b + a == a + b;
  }

  lemma {:induction false} AssignedBy(s: State, t: State, i: Id, owner: Id, p: Profile)
    requires i !in s.children && i in t.children && t.children[i] == Child(p, Running)
    requires i in t.verifyOwner && t.verifyOwner[i] == owner
    ensures Assigned(s, t, owner, p)
  {
  }

  lemma {:induction false} ReviewerStarts(c: Setup, a: set<Path>, b: set<Path>)
    requires Reviewer in c.profiles && c.budget >= 4
    ensures var s, (t, reply) := TwoClosing(a, b), Spawn(c, TwoClosing(a, b), Request(Reviewer, None, Some(0)), Starts);
            && reply == Started(2) && t.issued == 3 && t.reserved == map[] && Fresh(t) && |Live(t.children)| < 4
            && t.children == s.children[2 := Child(Reviewer, Running)] && t.verifyOwner == map[2 := 0]
            && 0 in t.writerRuns && t.writerRuns[0].Coder?
  {
    var s := TwoClosing(a, b);
    assert Live(s.children) == {0, 1} && Fresh(s);
    OwnedVerifierStarts(c, s, 0, Reviewer);
    assert Live(s.children[2 := Child(Reviewer, Running)]) == {0, 1, 2};
  }

  lemma {:induction false} TwoVerifiersStart(c: Setup, a: set<Path>, b: set<Path>)
    requires {Reviewer, Tester} <= c.profiles && c.budget >= 4
    ensures var (t, all) := StartVerification(c, TwoClosing(a, b), 0, a, Starts, Starts);
            && all && t.unverified == map[] && Covered(c, TwoClosing(a, b), t, 0, a)
  {
    var s := TwoClosing(a, b);
    ReviewerStarts(c, a, b);
    var s1 := Spawn(c, s, Request(Reviewer, None, Some(0)), Starts).0;
    AssignedBy(s, s1, 2, 0, Reviewer);
    OwnedVerifierStarts(c, s1, 0, Tester);
    var s2 := Spawn(c, s1, Request(Tester, None, Some(0)), Starts).0;
    AssignedBy(s, s2, 2, 0, Reviewer);
    AssignedBy(s, s2, 3, 0, Tester);
  }

  lemma {:induction false} TwoCodersFit(c: Setup)
    requires c.budget >= 4
    ensures AllButOneCoder(c, TWO_CODERS) && !OneCoder(TWO_CODERS.children) && LedgerKept(TWO_CODERS, {})
  {
    assert Live(TWO_CODERS.children) == {0, 1};
    assert LiveCoder(TWO_CODERS.children, 0) && LiveCoder(TWO_CODERS.children, 1);
  }

  lemma {:induction false} TwoClosingFits(c: Setup, a: set<Path>, b: set<Path>)
    requires c.budget >= 4
    ensures var s := TwoClosing(a, b);
            AllButOneCoder(c, s) && !OneCoder(s.children) && a + b <= AllFiles(s.unverified)
  {
    var s := TwoClosing(a, b);
    assert Live(s.children) == {0, 1};
    assert LiveCoder(s.children, 0) && LiveCoder(s.children, 1);
    assert 1 in s.unverified && forall f | f in a + b :: f in s.unverified[1];
  }

  lemma {:induction false} FirstClears(c: Setup, a: set<Path>, b: set<Path>)
    requires {Reviewer, Tester} <= c.profiles && c.budget >= 4 && !(b <= a)
    ensures var s := TwoClosing(a, b);
            var t := AfterClosing(c, s, 0, Starts, Starts);
            Covered(c, s, t, 0, a) && t.unverified == map[] && !LedgerKept(t, a + b - a)
  {
    var s := TwoClosing(a, b);
    TwoVerifiersStart(c, a, b);
    var r := StartVerification(c, s, 0, a, Starts, Starts).0;
    var t := AfterClosing(c, s, 0, Starts, Starts);
    assert t == r.(children := r.children[0 := Child(Coder, Reporting)]);
    CoveredIgnoresPhase(c, s, r, t, 0, a);
    var f :| f in b && f !in a;
    assert f in a + b - a && f !in AllFiles(t.unverified);
  }

  /** Two coders at once, everything else in order: the verification of the first one's files clears a
      file of the second one that nobody has been asked to look at. */
  lemma {:induction false} TwoCodersLoseFiles(c: Setup, a: set<Path>, b: set<Path>)
    requires {Reviewer, Tester} <= c.profiles && c.budget >= 4 && a != {} && !(b <= a)
    ensures AllButOneCoder(c, TWO_CODERS) && !OneCoder(TWO_CODERS.children) && LedgerKept(TWO_CODERS, {})
    ensures var s := FinishRun(FinishRun(TWO_CODERS, 0, Finished, a), 1, Finished, b);
            var t := AfterClosing(c, s, 0, Starts, Starts);
            && AllButOneCoder(c, s) && !OneCoder(s.children) && a + b <= AllFiles(s.unverified)
            && Covered(c, s, t, 0, a) && t.unverified == map[] && !LedgerKept(t, a + b - a)
  {
    TwoCodersFit(c);
    TwoCodersFinish(a, b);
    TwoClosingFits(c, a, b);
    FirstClears(c, a, b);
  }

  /** In a reachable state a verification clears only files on its own list. */
  lemma {:induction false} ClearedIsListed(c: Setup, events: seq<Event>, id: Id)
    requires var s := Reached(c, events); id in s.children && s.children[id].phase.Closing? && s.children[id].phase.verify
    ensures var s := Reached(c, events);
            && AllFiles(s.unverified) <= s.children[id].phase.files
            && forall j | LiveCoder(s.children, j) :: j == id
  {
    LedgerHoldsOwedFiles(c, events);
    EveryRunIsSafe(c, events);
    assert LiveCoder(Reached(c, events).children, id);
  }

  /****** Where the protocol gives less than it looks ******/

  /** A refusal for want of budget leaves everything as it was, except that a survey over its cap has
      used up its only retry: no later call gets it back. */
  lemma {:induction false} BudgetBurnsRetryIff(c: Setup, s: State, q: Request, launch: Launch)
    requires Spawn(c, s, q, launch).1 == Refused(BudgetExhausted)
    ensures var t, over := Spawn(c, s, q, launch).0, IsSurvey(q.profile) && SpawnsOf(s, q.profile) >= SurveyCap(s, q.profile);
            && (t == s <==> !over)
            && (over ==> q.profile in s.retry && q.profile !in t.retry && q.profile in t.retryUsed
                         && forall launch' :: Spawn(c, t, q, launch').1 == Refused(AlreadySurveyed))
  {
    var t, p := TakeRetry(s, q.profile), q.profile;
    assert Spawn(c, s, q, launch).0 == t;
    if IsSurvey(p) && SpawnsOf(s, p) >= SurveyCap(s, p) {
      assert t != s by { assert p in s.retry && p !in t.retry; }
      assert Gate(c, t, q) == Gate(c, s, q) == None;
      assert SpawnsOf(t, p) == SpawnsOf(s, p);
    }
  }

  const FIRST_CODER := SpawnCalled(Coder, None, Starts)
  const ONE_CODER := INITIAL.(children := map[0 := Child(Coder, Running)], issued := 1,
                              writerRuns := map[0 := Coder], lastCoder := Some(0))

  lemma {:induction false} FirstCoderStarts(c: Setup)
    requires Coder in c.profiles && c.budget >= 1
    ensures Reached(c, [FIRST_CODER]) == ONE_CODER
  {
    assert [FIRST_CODER][..0] == [];
    assert Live(INITIAL.children) == {};
    assert Next(c, INITIAL, FIRST_CODER) == Place(INITIAL, Coder, None, Starts).0;
    var none: map<Id, Profile> := map[];
    assert none[0 := Coder] - {0} == none;
  }

  lemma {:induction false} ReachedNext(c: Setup, events: seq<Event>, e: Event)
    ensures Reached(c, events + [e]) == Next(c, Reached(c, events), e)
  {
    assert (events + [e])[..|events|] == events;
  }

  const ASK_RESEARCHER := SpawnCalled(Researcher, None, Starts)
  const RESEARCHED := INITIAL.(issued := 1, spawns := map[Researcher := 1], surveyStarted := true, retry := {Researcher})
  const CODING := RESEARCHED.(children := map[1 := Child(Coder, Running)], issued := 2, writerRuns := map[1 := Coder],
                              lastCoder := Some(1))

  /** The state after the run of a child that touched no file. */
  function RunOver(s: State, id: Id, status: Status): State
    requires id in s.children
  {
    var p := s.children[id].profile;
    s.(children := s.children[id := Child(p, Closing({}, false))],
       retry := if status.Incomplete? && IsSurvey(p) && p !in s.retryUsed then s.retry + {p} else s.retry)
  }

  lemma {:induction false} RunEnds(s: State, id: Id, status: Status)
    requires id in s.children && s.children[id].phase.Running? && id !in s.verifyOwner && s.unverified == map[]
    ensures FinishRun(s, id, status, {}) == RunOver(s, id, status)
  {
    assert AllFiles(s.unverified) == {} && Touched(s, s.children[id].profile, {}) == {};
  }

  lemma {:induction false} ChildLeaves(c: Setup, s: State, id: Id)
    requires id in s.children && s.children[id].phase == Closing({}, false) && !s.aborting
    ensures AfterReporting(AfterClosing(c, s, id, Starts, Starts), id) == s.(children := s.children - {id})
  {
    var reporting := s.children[id := Child(s.children[id].profile, Reporting)];
    assert AfterClosing(c, s, id, Starts, Starts) == s.(children := reporting);
    assert reporting - {id} == s.children - {id};
  }

  function Ending(events: seq<Event>, id: Id, status: Status): seq<Event> {
    events + [RunEnded(id, status, {})] + [PageClosed(id, Starts, Starts)] + [ResultReported(id)]
  }

  lemma {:induction false} ChildEnds(c: Setup, events: seq<Event>, id: Id, status: Status, s: State)
    requires Reached(c, events) == s && id in s.children && s.children[id].phase.Running? && id !in s.verifyOwner
    requires s.unverified == map[] && !s.aborting
    ensures Reached(c, Ending(events, id, status)) == RunOver(s, id, status).(children := s.children - {id})
  {
    var e1 := events + [RunEnded(id, status, {})];
    ReachedNext(c, events, RunEnded(id, status, {}));
    ReachedNext(c, e1, PageClosed(id, Starts, Starts));
    ReachedNext(c, e1 + [PageClosed(id, Starts, Starts)], ResultReported(id));
    RunEnds(s, id, status);
    ChildLeaves(c, RunOver(s, id, status), id);
    assert RunOver(s, id, status).children - {id} == s.children - {id};
  }

  /** A researcher ends without a result and so earns a retry; then a coder takes the only place. */
  const RESEARCH_THEN_CODE := Ending([ASK_RESEARCHER], 0, Incomplete) + [FIRST_CODER]

  const RESEARCHING := RESEARCHED.(children := map[0 := Child(Researcher, Running)], retry := {})

  lemma {:induction false} ResearcherStarts(c: Setup)
    requires Researcher in c.profiles && c.budget >= 1
    ensures Reached(c, [ASK_RESEARCHER]) == RESEARCHING
  {
    NoneLeft(0, Researcher);
    assert Live(INITIAL.children) == {};
    assert [] + [ASK_RESEARCHER] == [ASK_RESEARCHER];
    ReachedNext(c, [], ASK_RESEARCHER);
    assert Next(c, INITIAL, ASK_RESEARCHER) == Place(INITIAL, Researcher, None, Starts).0;
  }

  lemma {:induction false} CoderFollows(c: Setup)
    requires Coder in c.profiles && c.budget >= 1
    ensures Next(c, RESEARCHED, FIRST_CODER) == CODING
  {
    NoneLeft(1, Coder);
    assert Live(RESEARCHED.children) == {};
    assert Next(c, RESEARCHED, FIRST_CODER) == Place(RESEARCHED, Coder, None, Starts).0;
  }

  lemma {:induction false} ResearchThenCode(c: Setup)
    requires {Coder, Researcher} <= c.profiles && c.budget >= 1
    ensures Reached(c, RESEARCH_THEN_CODE) == CODING
  {
    var front := Ending([ASK_RESEARCHER], 0, Incomplete);
    ResearcherStarts(c);
    ChildEnds(c, [ASK_RESEARCHER], 0, Incomplete, RESEARCHING);
    assert RESEARCHING.children - {0} == map[];
    assert Reached(c, front) == RESEARCHED;
    ReachedNext(c, front, FIRST_CODER);
    CoderFollows(c);
  }

  /** What the researcher is told once the coder is gone, with and without the retry. */
  lemma {:induction false} AskedAgain(c: Setup, s: State)
    requires Researcher in c.profiles && c.budget >= 1 && s in {CODING, TakeRetry(CODING, Researcher)}
    ensures var gone := RunOver(s, 1, Finished).(children := s.children - {1});
            && Live(gone.children) == {}
            && (s == CODING ==> Spawn(c, gone, Request(Researcher, None, None), Starts).1.Started?)
            && (s != CODING ==> Spawn(c, gone, Request(Researcher, None, None), Starts).1 == Refused(AlreadySurveyed))
  {
    assert s.children - {1} == map[];
  }

  /** Asking for the researcher while the coder holds the only place loses the retry: when the coder is
      gone the researcher is refused, and would have started had nobody asked too early. */
  lemma {:induction false} RetryIsLost(c: Setup)
    requires {Coder, Researcher} <= c.profiles && c.budget == 1
    ensures var asked := Reached(c, Ending(RESEARCH_THEN_CODE + [ASK_RESEARCHER], 1, Finished));
            && Live(asked.children) == {}
            && Spawn(c, asked, Request(Researcher, None, None), Starts).1 == Refused(AlreadySurveyed)
    ensures Spawn(c, Reached(c, Ending(RESEARCH_THEN_CODE, 1, Finished)), Request(Researcher, None, None), Starts).1.Started?
  {
    var early, left := RESEARCH_THEN_CODE + [ASK_RESEARCHER], TakeRetry(CODING, Researcher);
    ResearchThenCode(c);
    ReachedNext(c, RESEARCH_THEN_CODE, ASK_RESEARCHER);
    assert Live(CODING.children) == {1};
    assert Reached(c, early) == left;
    ChildEnds(c, early, 1, Finished, left);
    ChildEnds(c, RESEARCH_THEN_CODE, 1, Finished, CODING);
    AskedAgain(c, left);
    AskedAgain(c, CODING);
    assert Researcher in CODING.retry && Researcher !in left.retry;
  }

  /** The gate does not keep the model from starting a reviewer while the coder still works. */
  lemma {:induction false} ReviewerMayOverlapCoder(c: Setup)
    requires {Coder, Reviewer} <= c.profiles && c.budget >= 2
    ensures var s := Reached(c, [FIRST_CODER, SpawnCalled(Reviewer, None, Starts)]);
            s.children == map[0 := Child(Coder, Running), 1 := Child(Reviewer, Running)] && s.verifying == map[0 := {1}]
  {
    var second := SpawnCalled(Reviewer, None, Starts);
    FirstCoderStarts(c);
    assert [FIRST_CODER, second][..1] == [FIRST_CODER];
    assert Live(ONE_CODER.children) == {0};
    assert Next(c, ONE_CODER, second) == Place(ONE_CODER, Reviewer, Some(0), Starts).0;
    assert Reached(c, [FIRST_CODER, second]) == Next(c, ONE_CODER, second);
  }

  /** In this run the reviewer is cancelled before its first step; by `EarlyCancelJamsTheGate` no coder
      ever starts again. */
  lemma {:induction false} EarlyCancelRun(c: Setup)
    requires {Coder, Reviewer} <= c.profiles && c.budget >= 2
    ensures Stranded(c, [FIRST_CODER, SpawnCalled(Reviewer, None, Starts), CancelledEarly(1)]) == {1}
  {
    var second := SpawnCalled(Reviewer, None, Starts);
    ReviewerMayOverlapCoder(c);
    EveryRunIsSafe(c, [FIRST_CODER, second]);
    assert [FIRST_CODER, second, CancelledEarly(1)][..2] == [FIRST_CODER, second];
    assert [FIRST_CODER, second][..1] == [FIRST_CODER] && [FIRST_CODER][..0] == [];
    assert Stranded(c, [FIRST_CODER]) == {};
    assert Stranded(c, [FIRST_CODER, second]) == {};
    assert 1 in Reached(c, [FIRST_CODER, second]).verifying[0];
  }
}
