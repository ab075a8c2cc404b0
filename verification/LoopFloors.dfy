/** Floors and late turns. Every floor granted in a tick is handed back in it, and no other; and whenever the loop comes to
    service the stash, the longest overdue stash goes out, or, with none overdue, the floor of each waiting conversation is
    asked for in order of its wait until one is granted, and that one's stash goes out. */
module LoopFloors {
  import opened OrderedMaps
  import opened Messages
  import opened Stashing
  import opened Covering
  import opened ReplyLoop
  import opened LoopShape
  import opened LoopTicks
  import opened LoopHeld
  import LoopLate
  import LoopStop

  type Floors = multiset<string>

  /** The floors the loop has been granted and not yet handed back. */
  function FloorsHeld(p: Phase): Floors {
    match p
    case Planning(_, plan) => multiset(plan.toRelease)
    case HandingBack(f, others) => multiset([f] + others)
    case CoverTurn(floors, _, _, _) => multiset(floors)
    case Releasing(f, others) => multiset([f] + others)
    case RetryTurn(c, _) => multiset{c}
    case RetryRelease(f, _, _, _) => multiset{f}
    case _ => multiset{}
  }

  /** The floor a step is granted. */
  function GrantedBy(s: Loop, a: Action): Floors {
    if !a.FloorAnswers? || !a.answer.Granted? then multiset{}
    else if s.phase.RetryAsk? then multiset{s.phase.conversation}
    else if s.phase.Planning? && s.phase.plan.waiting != [] then multiset{s.phase.plan.waiting[0].conversation}
    else multiset{}
  }

  /** The floor a step hands back. */
  function ReturnedBy(s: Loop, a: Action): Floors {
    if !a.ReleaseReturns? then multiset{}
    else match s.phase
      case HandingBack(f, _) => multiset{f}
      case Releasing(f, _) => multiset{f}
      case RetryRelease(f, _, _, _) => multiset{f}
      case _ => multiset{}
  }

  /** A plan that holds a floor has messages for the turn. */
  predicate FlooredPlan(p: Plan) {
    p.toRelease != [] ==> p.floored != []
  }

  predicate FlooredPlans(s: Loop) {
    s.phase.Planning? ==> FlooredPlan(s.phase.plan)
  }

  /** What step `a` makes of the floors held. */
  ghost predicate Balanced(s: Loop, a: Action, r: Loop) {
    FlooredPlans(r) && FloorsHeld(r.phase) + ReturnedBy(s, a) == FloorsHeld(s.phase) + GrantedBy(s, a)
  }

  ghost predicate Holds(r: Loop, floors: seq<string>) {
    FlooredPlans(r) && FloorsHeld(r.phase) == multiset(floors)
  }

  lemma FirstAndRest(floors: seq<string>)
    requires floors != []
    ensures multiset([floors[0]] + floors[1..]) == multiset(floors)
  {
    assert [floors[0]] + floors[1..] == floors;
  }

  lemma EndHolds(s: Loop)
    requires s.stash.Valid()
    ensures Holds(EndTick(s), [])
  {
  }

  lemma WalkHolds(s: Loop, cs: seq<string>, now: int)
    requires s.stash.Valid()
    ensures Holds(WalkRetries(s, cs, now), [])
  {
    EndHolds(s);
  }

  lemma ServiceHolds(s: Loop, now: int)
    requires s.stash.Valid()
    ensures Holds(ServiceDeferred(s, now), [])
  {
    hide EndTick, WalkRetries, StashLabels, SortBySince, ExpiredAmong, LiveAmong;
    EndHolds(s);
    WalkHolds(s, RetryOrder(s.stash, now), now);
    if ExpiredOrder(s.stash, now) != [] { assert ExpiredOrder(s.stash, now)[0] in ExpiredOrder(s.stash, now); }
  }

  lemma HandBackHolds(s: Loop, floors: seq<string>)
    requires s.stash.Valid()
    ensures Holds(ReleaseThenEnd(s, floors), floors)
  {
    hide EndTick;
    EndHolds(s);
    if floors != [] { FirstAndRest(floors); }
  }

  lemma FinishHolds(s: Loop, t: Tick, q: Plan, now: int)
    requires s.stash.Valid() && FlooredPlan(q)
    ensures Holds(FinishPlan(s, t, q, now), q.toRelease)
  {
    hide StashGroups, ServiceDeferred, ReleaseThenEnd, Cover, CoveredBy;
    HandBackHolds(s, q.toRelease);
    if !s.stopped && q.floored == [] { ServiceHolds(StashGroups(s, q.deferred, t, now).(unhanded := []), now); }
  }

  lemma {:induction false} SkipFloored(p: Plan)
    requires FlooredPlan(p)
    ensures FlooredPlan(SkipOperatorOnly(p))
    decreases |p.waiting|
  {
    if p.waiting != [] && !HasPeer(p.waiting[0]) {
      SkipFloored(p.(waiting := p.waiting[1..], floored := p.floored + p.waiting[0].messages));
    }
  }

  lemma ContinueHolds(s: Loop, t: Tick, p: Plan, now: int)
    requires s.stash.Valid() && FlooredPlan(p)
    ensures Holds(ContinuePlan(s, t, p, now), p.toRelease)
  {
    hide FinishPlan, SkipOperatorOnly;
    SkipFloored(p);
    FinishHolds(s, t, SkipOperatorOnly(p), now);
  }

  lemma PlanBalances(s: Loop, a: Action)
    requires Shape(s) && FlooredPlans(s) && s.phase.Planning? && s.phase.plan.waiting != [] && a.FloorAnswers?
    ensures Balanced(s, a, ContinuePlan(s, s.phase.tick, Answered(s.phase.plan, a.answer), a.now))
  {
    hide ContinuePlan, TidyStash;
    assert s.phase.plan.waiting[0] in s.phase.plan.waiting;
    ContinueHolds(s, s.phase.tick, Answered(s.phase.plan, a.answer), a.now);
  }

  lemma RetryBalances(s: Loop, a: Action)
    requires s.stash.Valid() && s.phase.RetryAsk? && a.FloorAnswers?
    ensures Balanced(s, a, RetryStep(s, a.answer))
  {
    hide EndTick, WalkRetries;
    EndHolds(s);
    WalkHolds(s, s.phase.rest, s.phase.at);
  }

  lemma AfterCoverHolds(s: Loop, floors: seq<string>, now: int)
    requires s.stash.Valid()
    ensures Holds(AfterCoverTurn(s, floors, now), floors)
  {
    hide EndTick, ServiceDeferred;
    EndHolds(s);
    ServiceHolds(s, now);
    if floors != [] { FirstAndRest(floors); }
  }

  lemma SpawnBalances(s: Loop, a: Action)
    requires s.stash.Valid() && Spawning(s.phase) && a.SpawnDecided?
    ensures Balanced(s, a, SpawnStep(s, a.started, a.now))
  {
    hide EndTick, WalkRetries, AfterCoverTurn, CoverStarted, CoverFailed;
    match s.phase
    case CoverTurn(floors, _, _, _) =>
      CoverEndLeaves(s, a.started);
      AfterCoverHolds(if a.started then CoverStarted(s) else CoverFailed(s), floors, a.now);
    case OverrunTurn(late, at) =>
      var t := HeldBackEnded(s, late, a.started);
      EndHolds(t);
      WalkHolds(t, RetryOrder(t.stash, at), at);
    case RetryTurn(c, late) =>
  }

  lemma ReleaseBalances(s: Loop, a: Action)
    requires s.stash.Valid() && (s.phase.HandingBack? || s.phase.Releasing? || s.phase.RetryRelease?) && a.ReleaseReturns?
    ensures Balanced(s, a, ReleaseStep(s, a.now))
  {
    hide EndTick, WalkRetries, AfterCoverTurn, ReleaseThenEnd;
    EndHolds(s);
    match s.phase
    case HandingBack(f, others) => HandBackHolds(s, others); OneMore(f, others);
    case Releasing(f, others) => AfterCoverHolds(s, others, a.now); OneMore(f, others);
    case RetryRelease(_, rest, more, at) => WalkHolds(s, rest, at);
  }

  lemma OneMore(f: string, others: seq<string>)
    ensures multiset(others) + multiset{f} == multiset([f] + others)
  {
  }

  lemma PollHolds(s: Loop, b: Batch, now: int)
    requires s.stash.Valid() && ValidBatch(b)
    ensures Holds(PollStep(s, b, now), [])
  {
    hide EndTick, ServiceDeferred, TickOf;
    EndHolds(s);
    ServiceHolds(s.(generation := b.generation), now);
  }

  lemma AckHolds(s: Loop, now: int)
    requires s.stash.Valid() && (s.phase.QuietAck? || s.phase.Acking?)
    ensures Holds(AckStep(s, now), [])
  {
    hide ContinuePlan, EndTick, ServiceDeferred, GroupsOf;
    EndHolds(s);
    ServiceHolds(s, now);
    if s.phase.Acking? { ContinueHolds(s, s.phase.tick, Plan(GroupsOf(s.phase.tick.kept), [], [], []), now); }
  }

  lemma ActBalances(s: Loop, a: Action)
    requires Shape(s) && FlooredPlans(s) && Ready(s, a)
    ensures Balanced(s, a, Act(s, a))
  {
    hide PollStep, AckStep, ContinuePlan, RetryStep, SpawnStep, ReleaseStep, EndTick, Answered, TidyStash, GroupsOf;
    match a
    case PollReturns(b, now) => PollHolds(s, b, now);
    case AckReturns(now) => AckHolds(s, now);
    case FloorAnswers(_, _) => if s.phase.Planning? { PlanBalances(s, a); } else { RetryBalances(s, a); }
    case SpawnDecided(_, _) => SpawnBalances(s, a);
    case ReleaseReturns(_) => ReleaseBalances(s, a);
    case _ => EndHolds(s);
  }

  /** All floors granted, or handed back, between states `i` and `j`. */
  ghost function GrantedIn(ss: seq<Loop>, acts: seq<Action>, i: nat, j: nat): Floors
    requires i <= j < |ss| && j <= |acts|
    decreases j
  {
    if i == j then multiset{} else GrantedIn(ss, acts, i, j - 1) + GrantedBy(ss[j - 1], acts[j - 1])
  }

  ghost function ReturnedIn(ss: seq<Loop>, acts: seq<Action>, i: nat, j: nat): Floors
    requires i <= j < |ss| && j <= |acts|
    decreases j
  {
    if i == j then multiset{} else ReturnedIn(ss, acts, i, j - 1) + ReturnedBy(ss[j - 1], acts[j - 1])
  }

  lemma {:induction false} RunFloored(ss: seq<Loop>, acts: seq<Action>, i: nat)
    requires IsRun(ss, acts) && i <= |acts|
    ensures FlooredPlans(ss[i])
  {
    hide Next, Enabled, Shape, Act, Ready, FloorsHeld, GrantedBy, ReturnedBy;
    if i == 0 {
      RunStart(ss, acts);
    } else {
      RunFloored(ss, acts, i - 1);
      RunShape(ss, acts, i - 1);
      NextFloored(ss, acts, i - 1);
    }
  }

  lemma NextFloored(ss: seq<Loop>, acts: seq<Action>, i: nat)
    requires IsRun(ss, acts) && i < |acts| && Shape(ss[i]) && FlooredPlans(ss[i])
    ensures FlooredPlans(ss[i + 1])
  {
    hide Act, Ready, CanThrow, Thrown, Shape, FloorsHeld, GrantedBy, ReturnedBy;
    RunStep(ss, acts, i);
    if acts[i].TickThrows? {
      ThrownShape(ss[i], acts[i].during, acts[i].site);
    } else {
      ActBalances(ss[i], acts[i]);
    }
  }

  lemma Tally(before: Floors, held: Floors, after: Floors, back: Floors, granted: Floors, back': Floors, granted': Floors)
    requires held + back == before + granted && after + back' == held + granted'
    ensures after + (back + back') == before + (granted + granted')
  {
    assert after + (back + back') == (after + back') + back;
    assert (held + granted') + back == (held + back) + granted';
    assert (before + granted) + granted' == before + (granted + granted');
  }

  lemma {:induction false} FloorsBalance(ss: seq<Loop>, acts: seq<Action>, i: nat, j: nat)
    requires IsRun(ss, acts) && i <= j <= |acts| && forall n :: i <= n < j ==> !acts[n].TickThrows?
    ensures FloorsHeld(ss[j].phase) + ReturnedIn(ss, acts, i, j) == FloorsHeld(ss[i].phase) + GrantedIn(ss, acts, i, j)
    decreases j
  {
    hide Next, Enabled, Shape, Act, Ready, FloorsHeld, GrantedBy, ReturnedBy;
    if i < j {
      FloorsBalance(ss, acts, i, j - 1);
      RunShape(ss, acts, j - 1);
      RunFloored(ss, acts, j - 1);
      RunAct(ss, acts, j - 1);
      ActBalances(ss[j - 1], acts[j - 1]);
      Tally(FloorsHeld(ss[i].phase), FloorsHeld(ss[j - 1].phase), FloorsHeld(ss[j].phase),
            ReturnedIn(ss, acts, i, j - 1), GrantedIn(ss, acts, i, j - 1),
            ReturnedBy(ss[j - 1], acts[j - 1]), GrantedBy(ss[j - 1], acts[j - 1]));
    }
  }

  /** Between two moments when no tick is running, with a logger that does not throw, the floors handed back are exactly
      those granted, each as often, whether or not the loop is stopped in between. */
  lemma GrantedFloorsAreReturned(ss: seq<Loop>, acts: seq<Action>, i: nat, j: nat)
    requires IsRun(ss, acts) && i <= j <= |acts| && forall n :: i <= n < j ==> !acts[n].TickThrows?
    requires ss[i].phase.Idle? && ss[j].phase.Idle?
    ensures ReturnedIn(ss, acts, i, j) == GrantedIn(ss, acts, i, j)
  {
    hide Next, Enabled, GrantedIn, ReturnedIn;
    FloorsBalance(ss, acts, i, j);
    assert FloorsHeld(ss[i].phase) == FloorsHeld(ss[j].phase) == multiset{};
    assert multiset{} + ReturnedIn(ss, acts, i, j) == ReturnedIn(ss, acts, i, j);
  }

  // ---------------------------------------------------------------------
  // Which stash goes out
  // ---------------------------------------------------------------------

  ghost predicate AnyOverdue(d: Stashes, now: int) {
    exists c :: c in d.at && now - d.at[c].since > RETRY_TTL_MS
  }

  /** `late` was the overdue stash of `d` deferred first, and is no longer held. */
  ghost predicate TookOldest(d: Stashes, now: int, late: Stash, r: Stashes) {
    exists c :: c in d.at && c !in r.at && late == d.at[c] && now - late.since > RETRY_TTL_MS
             && (forall x :: x in d.at ==> late.since <= d.at[x].since)
             && (forall x :: x in d.at && x != c ==> x in r.at && r.at[x] == d.at[x])
  }

  /** `cs` names every stashed conversation once, the longest wait first. */
  ghost predicate ByWait(d: Stashes, cs: seq<string>) {
    && (forall c :: c in cs <==> c in d.at) && NoDup(cs) && LongestWaitFirst(d.at, cs)
  }

  /** What servicing the stash `d` comes to. */
  ghost predicate Served(d: Stashes, now: int, r: Loop) {
    if AnyOverdue(d, now) then r.phase.OverrunTurn? && r.phase.at == now && TookOldest(d, now, r.phase.late, r.stash)
    else if d.at == map[] then r.phase.Idle?
    else r.phase.RetryAsk? && r.phase.at == now && r.stash == d && ByWait(d, [r.phase.conversation] + r.phase.rest)
  }

  lemma {:induction false} LiveKeepsDistinct(at: map<string, Stash>, cs: seq<string>, now: int)
    requires (forall x :: x in cs ==> x in at) && NoDup(cs)
    ensures NoDup(LiveAmong(at, cs, now))
  {
    if cs != [] {
      var n := |cs| - 1;
      assert cs == cs[..n] + [cs[n]];
      LiveKeepsDistinct(at, cs[..n], now);
      var rest := LiveAmong(at, cs[..n], now);
      assert (rest + [cs[n]])[..|rest|] == rest;
      assert LiveAmong(at, cs, now) == if Expired(at[cs[n]], now) then rest else rest + [cs[n]];
    }
  }

  lemma RetryIsByWait(d: Stashes, now: int)
    requires d.Valid() && !AnyOverdue(d, now)
    ensures ByWait(d, RetryOrder(d, now))
  {
    var live := LiveAmong(d.at, d.keys, now);
    SortIsStable(d.at, live);
    LiveKeepsDistinct(d.at, d.keys, now);
    SameCountsNoDup(live, RetryOrder(d, now));
  }

  lemma OldestIsTaken(d: Stashes, now: int)
    requires d.Valid() && AnyOverdue(d, now)
    ensures ExpiredOrder(d, now) != [] && ExpiredOrder(d, now)[0] in d.at
    ensures TookOldest(d, now, d.at[ExpiredOrder(d, now)[0]], d.Remove(ExpiredOrder(d, now)[0]))
  {
    hide ExpiredOrder;
    var y :| y in d.at && now - d.at[y].since > RETRY_TTL_MS;
    OldestGoesFirst(d, now, y);
    var c := ExpiredOrder(d, now)[0];
    assert c in ExpiredOrder(d, now);
    forall x | x in d.at ensures d.at[c].since <= d.at[x].since {
      if Expired(d.at[x], now) { OldestGoesFirst(d, now, x); }
    }
  }

  lemma NothingListed(d: Stashes, now: int)
    requires d.Valid() && !AnyOverdue(d, now)
    ensures ExpiredOrder(d, now) == [] && (RetryOrder(d, now) == [] <==> d.at == map[])
  {
    LoopStop.SomeMember(ExpiredOrder(d, now));
    LoopStop.SomeMember(RetryOrder(d, now));
    if c :| c in d.at { assert c in RetryOrder(d, now); }
  }

  lemma ServiceIsServed(s: Loop, now: int)
    requires s.stash.Valid() && !s.stopped && !s.inFlight
    ensures Served(s.stash, now, ServiceDeferred(s, now))
  {
    hide ExpiredOrder, RetryOrder, TookOldest, ByWait;
    if AnyOverdue(s.stash, now) {
      OldestIsTaken(s.stash, now);
    } else {
      NothingListed(s.stash, now);
      RetryIsByWait(s.stash, now);
      var cs := RetryOrder(s.stash, now);
      if cs != [] { assert [cs[0]] + cs[1..] == cs; }
    }
  }

  /** The stash as it stands when a step comes to service it: after the deferred groups are stashed, or without the stashes
      that a covering turn has delivered. */
  ghost function StashServed(s: Loop, a: Action): Stashes
    requires s.stash.Valid()
  {
    if s.phase.Planning? then StashedTo(s, a, |Deferring(s, a)|)
    else if s.phase.CoverTurn? && a.SpawnDecided? && a.started then ClearAll(s.stash, s.phase.covered)
    else s.stash
  }

  lemma FinishServed(s: Loop, t: Tick, q: Plan, now: int)
    requires Tidy(s.stash) && Filled(q.deferred) && !s.stopped && !s.inFlight && q.floored == []
    ensures Served(StashGroups(s, q.deferred, t, now).stash, now, FinishPlan(s, t, q, now))
  {
    hide StashGroups, ServiceDeferred, TidyStash, Served;
    StashGroupsShape(s, q.deferred, t, now);
    ServiceIsServed(StashGroups(s, q.deferred, t, now).(unhanded := []), now);
  }

  lemma PlanServed(s: Loop, a: Action)
    requires Shape(s) && Ready(s, a) && s.phase.Planning? && LoopLate.Services(s, a)
    ensures Served(StashServed(s, a), ClockOf(a), Act(s, a))
  {
    hide FinishPlan, StashGroups, SkipOperatorOnly, Answered, Served, TidyStash;
    FinalPlanFilled(s, a);
    var q := FinalPlan(s, a);
    FinishServed(s, s.phase.tick, q, a.now);
    assert q.deferred[..|q.deferred|] == q.deferred;
  }

  lemma CoverEndServed(s: Loop, a: Action)
    requires Shape(s) && s.phase.CoverTurn? && a.SpawnDecided? && !s.stopped
    ensures var t := if a.started then CoverStarted(s) else CoverFailed(s);
      && t.stash == StashServed(s, a) && !t.stopped && !t.inFlight && t.stash.Valid()
  {
    hide TidyStash;
  }

  lemma SpawnServed(s: Loop, a: Action)
    requires Shape(s) && Ready(s, a) && a.SpawnDecided? && LoopLate.Services(s, a)
    ensures Served(StashServed(s, a), ClockOf(a), Act(s, a))
  {
    hide CoverStarted, CoverFailed, ServiceDeferred, Served, StashServed, Shape;
    CoverEndServed(s, a);
    ServiceIsServed(if a.started then CoverStarted(s) else CoverFailed(s), a.now);
  }

  /** Whenever an unstopped loop comes to service its stash, the overdue stash deferred first goes out whole; with none
      overdue it asks for the floor of the conversation waiting longest, and keeps the others in order of their wait. */
  lemma ServiceIsFair(s: Loop, a: Action)
    requires Shape(s) && Ready(s, a) && LoopLate.Services(s, a)
    ensures Served(StashServed(s, a), ClockOf(a), Act(s, a))
  {
    hide ServiceDeferred, Served, TidyStash, ContinuePlan, SpawnStep, TickOf;
    match a
    case PollReturns(b, now) => ServiceIsServed(s.(generation := b.generation), now);
    case AckReturns(now) => ServiceIsServed(s, now);
    case FloorAnswers(_, _) => PlanServed(s, a);
    case SpawnDecided(_, _) => SpawnServed(s, a);
    case ReleaseReturns(now) => ServiceIsServed(s, now);
  }

  // ---------------------------------------------------------------------
  // The walk over the waiting conversations
  // ---------------------------------------------------------------------

  /** From `k` to `j` the loop asks for the floors of waiting conversations; it is not stopped and the logger does not throw. */
  ghost predicate Walks(ss: seq<Loop>, acts: seq<Action>, k: nat, j: nat) {
    && IsRun(ss, acts) && k < j <= |acts|
    && (forall i :: k <= i < j ==> ss[i].phase.RetryAsk? && !acts[i].TickThrows?)
    && (forall i :: k <= i <= j ==> !ss[i].stopped)
  }

  function Asking(s: Loop): seq<string>
    requires s.phase.RetryAsk?
  {
    [s.phase.conversation] + s.phase.rest
  }

  lemma RetryGoesOn(s: Loop, answer: FloorAnswer)
    requires Shape(s) && !s.stopped && s.phase.RetryAsk? && s.phase.conversation in s.stash.at
    ensures
      var r := RetryStep(s, answer);
      if answer.Granted? then
        && r.phase == RetryTurn(s.phase.conversation, s.stash.at[s.phase.conversation]) && s.phase.conversation !in r.stash.at
      else if s.phase.rest == [] then r.phase.Idle?
      else r.phase.RetryAsk? && Asking(r) == s.phase.rest && r.stash == s.stash
  {
  }

  /** `n` of the conversations asked for since `s0` have refused. */
  ghost predicate OnWalk(s0: Loop, s: Loop, n: nat) {
    && s0.phase.RetryAsk? && s.phase.RetryAsk? && s.stash == s0.stash
    && n < |Asking(s0)| && Asking(s) == Asking(s0)[n..] && s.phase.conversation == Asking(s0)[n]
  }

  lemma OneMoreRefused(s0: Loop, s: Loop, r: Loop, n: nat)
    requires OnWalk(s0, s, n) && r.phase.RetryAsk? && Asking(r) == s.phase.rest && r.stash == s.stash
    ensures OnWalk(s0, r, n + 1)
  {
    assert s.phase.rest == Asking(s)[1..];
    assert r.phase.conversation == Asking(r)[0];
  }

  lemma {:induction false} WalkGoesOn(ss: seq<Loop>, acts: seq<Action>, k: nat, j: nat)
    requires Walks(ss, acts, k, j) && forall c :: c in Asking(ss[k]) ==> c in ss[k].stash.at
    ensures OnWalk(ss[k], ss[j - 1], j - 1 - k)
    ensures forall n :: k <= n < j - 1 ==> acts[n].FloorAnswers? && !acts[n].answer.Granted?
    decreases j
  {
    hide Next, Enabled, Act, Shape, RetryStep, OnWalk;
    if j == k + 1 {
      WalkStarts(ss[k]);
    } else {
      WalkGoesOn(ss, acts, k, j - 1);
      OnWalkHeld(ss[k], ss[j - 2], j - 2 - k);
      WalkStep(ss, acts, k, j - 1);
      OneMoreRefused(ss[k], ss[j - 2], ss[j - 1], j - 2 - k);
    }
  }

  lemma WalkStarts(s: Loop)
    requires s.phase.RetryAsk?
    ensures OnWalk(s, s, 0)
  {
  }

  lemma OnWalkHeld(s0: Loop, s: Loop, n: nat)
    requires OnWalk(s0, s, n) && forall c :: c in Asking(s0) ==> c in s0.stash.at
    ensures s.phase.RetryAsk? && s.phase.conversation in s.stash.at && s.stash == s0.stash
    ensures n < |Asking(s0)| && s.phase.conversation == Asking(s0)[n] && (s.phase.rest == [] <==> n == |Asking(s0)| - 1)
  {
    assert |Asking(s)| == |s.phase.rest| + 1;
  }

  lemma WalkStep(ss: seq<Loop>, acts: seq<Action>, k: nat, j: nat)
    requires Walks(ss, acts, k, j) && k < j
    requires ss[j - 1].phase.conversation in ss[j - 1].stash.at
    ensures acts[j - 1].FloorAnswers?
    ensures
      var s, r := ss[j - 1], ss[j];
      if acts[j - 1].answer.Granted? then
        && r.phase == RetryTurn(s.phase.conversation, s.stash.at[s.phase.conversation]) && s.phase.conversation !in r.stash.at
      else if s.phase.rest == [] then r.phase.Idle?
      else r.phase.RetryAsk? && Asking(r) == s.phase.rest && r.stash == s.stash
  {
    hide RetryStep, Shape, Next, Enabled;
    RunShape(ss, acts, j - 1);
    RunAct(ss, acts, j - 1);
    NoStop(ss, acts, j - 1);
    RetryGoesOn(ss[j - 1], acts[j - 1].answer);
  }

  /** The walk ends with the first conversation granted the floor, whose stash, whole, is the late turn; or, with all of
      them refused, with no turn. */
  lemma FirstGrantGoesOut(ss: seq<Loop>, acts: seq<Action>, k: nat, j: nat)
    requires Walks(ss, acts, k, j) && !ss[j].phase.RetryAsk? && forall c :: c in Asking(ss[k]) ==> c in ss[k].stash.at
    ensures forall n :: k <= n < j ==> acts[n].FloorAnswers?
    ensures forall n :: k <= n < j - 1 ==> !acts[n].answer.Granted?
    ensures j - 1 - k < |Asking(ss[k])|
    ensures
      var c := Asking(ss[k])[j - 1 - k];
      if acts[j - 1].answer.Granted? then ss[j].phase == RetryTurn(c, ss[k].stash.at[c]) && c !in ss[j].stash.at
      else j - k == |Asking(ss[k])| && ss[j].phase.Idle?
  {
    hide Next, Enabled, Act, Shape, RetryStep, OnWalk, Asking, Ready;
    WalkGoesOn(ss, acts, k, j);
    OnWalkHeld(ss[k], ss[j - 1], j - 1 - k);
    WalkStep(ss, acts, k, j);
  }
}
