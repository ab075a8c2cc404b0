/** What the stash remembers. Nothing but a denied floor puts anything into it, a stash leaves it only whole, and each
    stash holds its own conversation's messages; so a held-back turn shows each message with exactly what the poll that
    kept it said. */
module LoopHeld {
  import opened OrderedMaps
  import opened Messages
  import opened Stashing
  import opened Covering
  import opened ReplyLoop
  import opened LoopShape
  import opened LoopPlans
  import opened LoopTicks
  import LoopLate

  // ---------------------------------------------------------------------
  // What a step does to the stash
  // ---------------------------------------------------------------------

  /** Conversations may be missing; those still there are as they were. */
  ghost predicate Leaves(d: Stashes, r: Stashes) {
    forall c :: c in r.at ==> c in d.at && r.at[c] == d.at[c]
  }

  /** The groups a planning that ends with this step defers. */
  function Deferring(s: Loop, a: Action): seq<Group> {
    if s.phase.Planning? && s.phase.plan.waiting != [] && a.FloorAnswers? && !s.stopped && FinalPlan(s, a).waiting == []
    then FinalPlan(s, a).deferred else []
  }

  function TickIn(s: Loop): Tick {
    if HasTick(s.phase) then s.phase.tick else Tick([], map[])
  }

  function ClockOf(a: Action): int {
    if LoopLate.TimeOf(a).Some? then LoopLate.TimeOf(a).value else 0
  }

  /** The stash with the first `n` of those groups stashed. */
  ghost function StashedTo(s: Loop, a: Action, n: nat): Stashes
    requires s.stash.Valid() && n <= |Deferring(s, a)|
  {
    StashGroups(s, Deferring(s, a)[..n], TickIn(s), ClockOf(a)).stash
  }

  function Core(a: Action): Action {
    if a.TickThrows? then a.during else a
  }

  lemma EndLeaves(s: Loop)
    requires s.stash.Valid()
    ensures Leaves(s.stash, EndTick(s).stash)
  {
  }

  lemma WalkLeaves(s: Loop, cs: seq<string>, now: int)
    requires s.stash.Valid()
    ensures Leaves(s.stash, WalkRetries(s, cs, now).stash)
  {
    EndLeaves(s);
  }

  lemma ServiceLeaves(s: Loop, now: int)
    requires s.stash.Valid()
    ensures Leaves(s.stash, ServiceDeferred(s, now).stash)
  {
    EndLeaves(s);
    WalkLeaves(s, RetryOrder(s.stash, now), now);
    if ExpiredOrder(s.stash, now) != [] { assert ExpiredOrder(s.stash, now)[0] in ExpiredOrder(s.stash, now); }
  }

  lemma FinishLeaves(s: Loop, t: Tick, q: Plan, now: int)
    requires s.stash.Valid()
    ensures Leaves((if s.stopped then s else StashGroups(s, q.deferred, t, now)).stash, FinishPlan(s, t, q, now).stash)
  {
    hide StashGroups, ServiceDeferred, EndTick, Cover, CoveredBy;
    if s.stopped {
      EndLeaves(s);
    } else if q.floored == [] {
      ServiceLeaves(StashGroups(s, q.deferred, t, now).(unhanded := []), now);
    }
  }

  lemma PlanLeaves(s: Loop, a: Action)
    requires Ready(s, a) && s.phase.Planning? && a.FloorAnswers?
    ensures Leaves(StashedTo(s, a, |Deferring(s, a)|), Act(s, a).stash)
  {
    hide FinishPlan, StashGroups, SkipOperatorOnly, Answered;
    var q, t := FinalPlan(s, a), s.phase.tick;
    FinishLeaves(s, t, q, a.now);
    assert q.deferred[..|q.deferred|] == q.deferred;
    NoneStashed(s, t, a.now);
  }

  lemma NoneStashed(s: Loop, t: Tick, now: int)
    requires s.stash.Valid()
    ensures StashGroups(s, [], t, now) == s
  {
  }

  lemma AckLeaves(s: Loop, now: int)
    requires s.stash.Valid() && (s.phase.QuietAck? || s.phase.Acking?)
    ensures Leaves(s.stash, AckStep(s, now).stash)
  {
    hide FinishPlan, StashGroups, EndTick, ServiceDeferred;
    EndLeaves(s);
    ServiceLeaves(s, now);
    if s.phase.Acking? {
      var q := SkipOperatorOnly(Plan(GroupsOf(s.phase.tick.kept), [], [], []));
      FinishLeaves(s, s.phase.tick, q, now);
      NoneStashed(s, s.phase.tick, now);
    }
  }

  lemma RetryLeaves(s: Loop, answer: FloorAnswer)
    requires s.stash.Valid() && s.phase.RetryAsk?
    ensures Leaves(s.stash, RetryStep(s, answer).stash)
  {
    hide EndTick, WalkRetries;
    EndLeaves(s);
    WalkLeaves(s, s.phase.rest, s.phase.at);
  }

  lemma AfterCoverLeaves(s: Loop, floors: seq<string>, now: int)
    requires s.stash.Valid()
    ensures Leaves(s.stash, AfterCoverTurn(s, floors, now).stash)
  {
    hide EndTick, ServiceDeferred;
    EndLeaves(s);
    ServiceLeaves(s, now);
  }

  lemma LeavesChain(a: Stashes, b: Stashes, c: Stashes)
    requires Leaves(a, b) && Leaves(b, c)
    ensures Leaves(a, c)
  {
  }

  lemma CoverEndLeaves(s: Loop, started: bool)
    requires s.stash.Valid() && s.phase.CoverTurn?
    ensures (if started then CoverStarted(s) else CoverFailed(s)).stash.Valid()
    ensures Leaves(s.stash, (if started then CoverStarted(s) else CoverFailed(s)).stash)
  {
  }

  lemma SpawnStepLeaves(s: Loop, started: bool, now: int)
    requires s.stash.Valid() && Spawning(s.phase)
    ensures Leaves(s.stash, SpawnStep(s, started, now).stash)
  {
    hide EndTick, WalkRetries, AfterCoverTurn, CoverStarted, CoverFailed, Leaves;
    match s.phase
    case CoverTurn(floors, _, _, _) =>
      var t := if started then CoverStarted(s) else CoverFailed(s);
      CoverEndLeaves(s, started);
      AfterCoverLeaves(t, floors, now);
      LeavesChain(s.stash, t.stash, AfterCoverTurn(t, floors, now).stash);
    case OverrunTurn(late, at) =>
      var t := HeldBackEnded(s, late, started);
      EndLeaves(t);
      WalkLeaves(t, RetryOrder(t.stash, at), at);
    case RetryTurn(c, late) => Stays(s.stash);
  }

  lemma Stays(d: Stashes)
    ensures Leaves(d, d)
  {
  }

  lemma ReleaseLeaves(s: Loop, now: int)
    requires s.stash.Valid() && (s.phase.HandingBack? || s.phase.Releasing? || s.phase.RetryRelease?)
    ensures Leaves(s.stash, ReleaseStep(s, now).stash)
  {
    hide EndTick, WalkRetries, AfterCoverTurn, Leaves;
    Stays(s.stash);
    EndLeaves(s);
    match s.phase
    case HandingBack(_, others) =>
    case Releasing(_, others) => AfterCoverLeaves(s, others, now);
    case RetryRelease(_, rest, more, at) => WalkLeaves(s, rest, at);
  }

  lemma PollLeaves(s: Loop, b: Batch, now: int)
    requires s.stash.Valid() && ValidBatch(b)
    ensures Leaves(s.stash, PollStep(s, b, now).stash)
  {
    hide EndTick, ServiceDeferred, TickOf;
    EndLeaves(s);
    ServiceLeaves(s.(generation := b.generation), now);
  }

  /** Whatever the loop does, its stash comes from the old one by stashing the groups a plan defers, then taking stashes out. */
  lemma ActLeaves(s: Loop, a: Action)
    requires Ready(s, a)
    ensures Leaves(StashedTo(s, a, |Deferring(s, a)|), Act(s, a).stash)
  {
    hide StashGroups, PollStep, AckStep, ContinuePlan, RetryStep, SpawnStep, ReleaseStep, EndTick, FlushOnStop, Leaves, SkipOperatorOnly, Answered;
    NoneStashed(s, TickIn(s), ClockOf(a));
    Stays(s.stash);
    match a
    case PollReturns(b, now) => PollLeaves(s, b, now);
    case AckReturns(now) => AckLeaves(s, now);
    case FloorAnswers(answer, now) => if s.phase.Planning? { PlanLeaves(s, a); } else { RetryLeaves(s, answer); }
    case SpawnDecided(started, now) => SpawnStepLeaves(s, started, now);
    case ReleaseReturns(now) => ReleaseLeaves(s, now);
    case Stop => FlushLeaves(s);
    case _ => EndLeaves(s); NoticeLeaves(s);
  }

  lemma FlushLeaves(s: Loop)
    requires s.stash.Valid()
    ensures Leaves(s.stash, FlushOnStop(s.(stopped := true)).stash)
  {
  }

  lemma NoticeLeaves(s: Loop)
    requires s.stash.Valid()
    ensures s.phase.Noticing? ==> Leaves(s.stash, NoticeStep(s).stash)
  {
    hide EndTick;
    EndLeaves(s);
  }

  /** A throwing logger may leave only the first of those groups stashed. */
  ghost predicate Derived(s: Loop, a: Action, r: Loop)
    requires s.stash.Valid()
  {
    exists n :: 0 <= n <= |Deferring(s, a)| && Leaves(StashedTo(s, a, n), r.stash)
  }

  lemma AbandonLeaves(s: Loop, ks: Keys)
    requires s.stash.Valid()
    ensures Leaves(s.stash, Abandon(s, ks).stash)
  {
    EndLeaves(s.(inFlight := false, ledger := s.ledger.(lost := s.ledger.lost + ks)));
  }

  lemma ReportingLeaves(s: Loop, a: Action)
    requires Ready(s, a) && Reports(s, a)
    ensures Leaves(s.stash, ThrownReporting(s, a).stash)
  {
    hide EndTick, Abandon, Leaves, CoverFailed;
    match a
    case PollReturns(b, _) => EndLeaves(if s.stopped then s else s.(generation := b.generation));
    case SpawnDecided(_, _) =>
      if s.phase.CoverTurn? {
        CoverEndLeaves(s, false);
        EndLeaves(CoverFailed(s));
        LeavesChain(s.stash, CoverFailed(s).stash, EndTick(CoverFailed(s)).stash);
      } else {
        AbandonLeaves(s.(effects := s.effects + [TurnEnded]), Aboard(s.phase));
      }
    case _ => AbandonLeaves(s, multiset(KeysOf(s.unhanded)));
  }

  lemma DroppingLeaves(s: Loop, a: Action, g: nat, d: nat)
    requires CanDrop(s, a, g, d)
    ensures g < |Deferring(s, a)| && Leaves(StashedTo(s, a, g + 1), ThrownDropping(s, a, g, d).stash)
  {
    hide StashGroup, Abandon, SkipOperatorOnly, Answered, Leaves, GroupKeys, DroppedKeys;
    var q, t := FinalPlan(s, a), s.phase.tick;
    var u := StashUpTo(s, q.deferred, g, d, t, a.now);
    AbandonLeaves(u, DroppedKeys(GroupDrops(s, q.deferred, g, t, a.now)[d..]) + GroupKeys(q.deferred[g + 1..]) + multiset(KeysOf(q.floored)));
    OneMoreGroup(s, q.deferred, g, t, a.now);
  }

  lemma OneMoreGroup(s: Loop, gs: seq<Group>, g: nat, t: Tick, now: int)
    requires s.stash.Valid() && g < |gs|
    ensures StashGroups(s, gs[..g + 1], t, now) == StashGroup(StashGroups(s, gs[..g], t, now), gs[g], t, now)
  {
    assert gs[..g + 1][..g] == gs[..g];
  }

  lemma NextDerived(s: Loop, a: Action)
    requires s.stash.Valid() && Enabled(s, a)
    ensures Derived(s, Core(a), Next(s, a))
  {
    hide StashGroups, Act, ThrownReporting, ThrownDropping, EndTick, Abandon, Leaves, Deferring, TickIn, ClockOf;
    var core := Core(a);
    NoneTo(s, core);
    if !a.TickThrows? {
      ActLeaves(s, a);
    } else {
      match a.site
      case Reporting => ReportingLeaves(s, core);
      case Recorded => EndLeaves(HeldBackEnded(s, s.phase.late, false));
      case Announcing =>
        ActLeaves(s, core);
        var r := Act(s, core);
        var u := r.(effects := r.effects[..|r.effects| - 1], turns := s.turns);
        AbandonLeaves(u, Aboard(r.phase));
        LeavesChain(StashedTo(s, core, |Deferring(s, core)|), r.stash, Next(s, a).stash);
      case Dropping(g, d) => DroppingLeaves(s, core, g, d);
    }
  }

  lemma NoneTo(s: Loop, a: Action)
    requires s.stash.Valid()
    ensures StashedTo(s, a, 0) == s.stash
  {
    NoneStashed(s, TickIn(s), ClockOf(a));
    assert Deferring(s, a)[..0] == [];
  }

  // ---------------------------------------------------------------------
  // Ticks come from polls
  // ---------------------------------------------------------------------

  lemma EndNoTick(s: Loop)
    requires s.stash.Valid()
    ensures EndTick(s).phase.Idle?
  {
  }

  lemma WalkNoTick(s: Loop, cs: seq<string>, now: int)
    requires s.stash.Valid()
    ensures !HasTick(WalkRetries(s, cs, now).phase)
  {
  }

  lemma AfterCoverNoTick(s: Loop, floors: seq<string>, now: int)
    requires s.stash.Valid()
    ensures !HasTick(AfterCoverTurn(s, floors, now).phase)
  {
    hide EndTick, ServiceDeferred;
    EndNoTick(s);
    ServedNoTick(s, now);
  }

  lemma SpawnNoTick(s: Loop, started: bool, now: int)
    requires s.stash.Valid() && Spawning(s.phase)
    ensures !HasTick(SpawnStep(s, started, now).phase)
  {
    hide EndTick, WalkRetries, AfterCoverTurn, CoverStarted, CoverFailed;
    match s.phase
    case CoverTurn(floors, _, _, _) =>
      CoverEndLeaves(s, started);
      AfterCoverNoTick(if started then CoverStarted(s) else CoverFailed(s), floors, now);
    case OverrunTurn(late, at) =>
      var t := HeldBackEnded(s, late, started);
      EndNoTick(t);
      WalkNoTick(t, RetryOrder(t.stash, at), at);
    case RetryTurn(c, late) =>
  }

  lemma ReleaseNoTick(s: Loop, now: int)
    requires s.stash.Valid() && (s.phase.HandingBack? || s.phase.Releasing? || s.phase.RetryRelease?)
    ensures !HasTick(ReleaseStep(s, now).phase)
  {
    hide EndTick, WalkRetries, AfterCoverTurn;
    EndNoTick(s);
    match s.phase
    case HandingBack(_, others) =>
    case Releasing(_, others) => AfterCoverNoTick(s, others, now);
    case RetryRelease(_, rest, more, at) => WalkNoTick(s, rest, at);
  }

  lemma RetryNoTick(s: Loop, answer: FloorAnswer)
    requires s.stash.Valid() && s.phase.RetryAsk?
    ensures !HasTick(RetryStep(s, answer).phase)
  {
    hide EndTick, WalkRetries;
    EndNoTick(s);
    WalkNoTick(s, s.phase.rest, s.phase.at);
  }

  /** Groups in planning are whole conversations of the tick's kept messages. */
  ghost predicate WholePlan(kept: seq<Message>, p: Plan) {
    AllWhole(kept, p.waiting) && AllWhole(kept, p.deferred)
  }

  ghost predicate WholePlans(s: Loop) {
    s.phase.Planning? ==> WholePlan(s.phase.tick.kept, s.phase.plan)
  }

  lemma {:induction false} SkipKeepsWhole(kept: seq<Message>, p: Plan)
    requires WholePlan(kept, p)
    ensures WholePlan(kept, SkipOperatorOnly(p))
    decreases |p.waiting|
  {
    if p.waiting != [] && !HasPeer(p.waiting[0]) {
      hide HasPeer, Whole;
      SkipKeepsWhole(kept, p.(waiting := p.waiting[1..], floored := p.floored + p.waiting[0].messages));
    }
  }

  lemma AnsweredWhole(kept: seq<Message>, p: Plan, answer: FloorAnswer)
    requires WholePlan(kept, p) && p.waiting != []
    ensures WholePlan(kept, Answered(p, answer))
  {
    hide Whole;
  }

  lemma FinalWhole(s: Loop, a: Action)
    requires WholePlans(s) && s.phase.Planning? && s.phase.plan.waiting != [] && a.FloorAnswers?
    ensures WholePlan(s.phase.tick.kept, FinalPlan(s, a))
  {
    hide WholePlan, SkipOperatorOnly, Answered;
    AnsweredWhole(s.phase.tick.kept, s.phase.plan, a.answer);
    SkipKeepsWhole(s.phase.tick.kept, Answered(s.phase.plan, a.answer));
  }

  /** `r` is busy with the tick `s` was busy with, or with the one that poll `a` has brought. */
  ghost predicate TickComesFrom(s: Loop, a: Action, r: Loop) {
    HasTick(r.phase) ==>
      || (HasTick(s.phase) && r.phase.tick == s.phase.tick)
      || (a.PollReturns? && |a.batch.results| == |a.batch.messages| && r.phase.tick == TickOf(a.batch))
  }

  lemma ContinueTick(s: Loop, t: Tick, p: Plan, now: int)
    requires s.stash.Valid() && WholePlan(t.kept, p)
    ensures WholePlans(ContinuePlan(s, t, p, now))
    ensures HasTick(ContinuePlan(s, t, p, now).phase) ==> ContinuePlan(s, t, p, now).phase.tick == t
  {
    hide FinishPlan, WholePlan, SkipOperatorOnly;
    FinishedNoTick(s, t, SkipOperatorOnly(p), now);
    SkipKeepsWhole(t.kept, p);
  }

  lemma AckTick(s: Loop, now: int)
    requires s.stash.Valid() && (s.phase.QuietAck? || s.phase.Acking?)
    ensures WholePlans(AckStep(s, now)) && (HasTick(AckStep(s, now).phase) ==> HasTick(s.phase) && AckStep(s, now).phase.tick == s.phase.tick)
  {
    hide ContinuePlan, EndTick, ServiceDeferred, Whole;
    EndNoTick(s);
    ServedNoTick(s, now);
    if s.phase.Acking? {
      GroupsAreConversations(s.phase.tick.kept, "");
      ContinueTick(s, s.phase.tick, Plan(GroupsOf(s.phase.tick.kept), [], [], []), now);
    }
  }

  lemma PollTick(s: Loop, b: Batch, now: int)
    requires s.stash.Valid() && ValidBatch(b)
    ensures WholePlans(PollStep(s, b, now)) && (HasTick(PollStep(s, b, now).phase) ==> PollStep(s, b, now).phase.tick == TickOf(b))
  {
    hide EndTick, ServiceDeferred, TickOf, WholePlan;
    EndNoTick(s);
    ServedNoTick(s.(generation := b.generation), now);
  }

  lemma ActTick(s: Loop, a: Action)
    requires Ready(s, a) && WholePlans(s)
    ensures WholePlans(Act(s, a)) && TickComesFrom(s, a, Act(s, a))
  {
    hide PollStep, AckStep, ContinuePlan, RetryStep, SpawnStep, ReleaseStep, EndTick, WholePlan, Answered, TickOf;
    match a
    case PollReturns(b, now) => PollTick(s, b, now);
    case AckReturns(now) => AckTick(s, now);
    case FloorAnswers(answer, now) =>
      if s.phase.Planning? {
        AnsweredWhole(s.phase.tick.kept, s.phase.plan, answer);
        ContinueTick(s, s.phase.tick, Answered(s.phase.plan, answer), now);
      } else {
        RetryNoTick(s, answer);
      }
    case SpawnDecided(started, now) => SpawnNoTick(s, started, now);
    case ReleaseReturns(now) => ReleaseNoTick(s, now);
    case _ => EndNoTick(s);
  }

  lemma NextTick(s: Loop, a: Action)
    requires Shape(s) && Enabled(s, a) && WholePlans(s)
    ensures WholePlans(Next(s, a)) && TickComesFrom(s, a, Next(s, a))
  {
    hide Act, CanThrow, Ready, Thrown, Shape, WholePlan;
    if a.TickThrows? { ThrownShape(s, a.during, a.site); } else { ActTick(s, a); }
  }

  lemma {:induction false} RunWhole(ss: seq<Loop>, acts: seq<Action>, i: nat)
    requires IsRun(ss, acts) && i <= |acts|
    ensures WholePlans(ss[i])
  {
    hide Next, Enabled, Shape, WholePlan;
    if i == 0 {
      RunStart(ss, acts);
    } else {
      RunWhole(ss, acts, i - 1);
      RunShape(ss, acts, i - 1);
      RunStep(ss, acts, i - 1);
      NextTick(ss[i - 1], acts[i - 1]);
    }
  }

  // ---------------------------------------------------------------------
  // Each stash holds its own conversation
  // ---------------------------------------------------------------------

  ghost predicate Owned(es: seq<StashEntry>, c: string) {
    forall e :: e in es ==> e.message.conversation == c
  }

  ghost predicate OwnStashes(d: Stashes) {
    forall c :: c in d.at ==> Owned(d.at[c].entries, c)
  }

  ghost predicate OwnFile(m: ByKey, c: string) {
    forall k :: k in m.at ==> m.at[k].message.conversation == c
  }

  lemma SetOwned(m: ByKey, msg: Message, vs: Verdicts, gen: Option<Generation>, c: string)
    requires OwnFile(m, c) && msg.conversation == c
    ensures OwnFile(m.Set(KeyOf(msg), Incoming(m, msg, vs, gen)), c)
  {
  }

  lemma {:induction false} AbsorbOwned(m: ByKey, msgs: seq<Message>, vs: Verdicts, gen: Option<Generation>, c: string)
    requires Filed(m) && OwnFile(m, c) && forall x :: x in msgs ==> x.conversation == c
    ensures OwnFile(Absorb(m, msgs, vs, gen), c)
  {
    if msgs != [] {
      hide Absorb, Filed, Incoming, OwnFile, Union;
      var n := |msgs| - 1;
      var init, msg := msgs[..n], msgs[n];
      assert msgs == init + [msg];
      AbsorbSnoc(m, init, msg, vs, gen);
      AbsorbOwned(m, init, vs, gen, c);
      SetOwned(Absorb(m, init, vs, gen), msg, vs, gen, c);
    }
  }

  lemma OrderedOwned(d: Stashes, c: string, msgs: seq<Message>, vs: Verdicts, gen: Option<Generation>)
    requires OwnStashes(d) && forall x :: x in msgs ==> x.conversation == c
    ensures Owned(Ordered(d, c, msgs, vs, gen), c)
  {
    var m := File(EntriesOf(d, c));
    forall k | k in m.at ensures m.at[k].message.conversation == c { FiledEntries(EntriesOf(d, c), k); }
    AbsorbOwned(m, msgs, vs, gen, c);
  }

  lemma StashOwned(d: Stashes, g: Group, vs: Verdicts, now: int, gen: Option<Generation>)
    requires d.Valid() && OwnStashes(d) && forall x :: x in g.messages ==> x.conversation == g.conversation
    ensures OwnStashes(StashAfter(d, g.conversation, g.messages, vs, now, gen))
  {
    hide Ordered;
    var c := g.conversation;
    OrderedOwned(d, c, g.messages, vs, gen);
    var all, r := Restashed(d, c, g.messages, vs, now, gen), StashAfter(d, c, g.messages, vs, now, gen);
    EvictionKeeps(all, CONVERSATION_CAP);
    forall x | x in r.at ensures Owned(r.at[x].entries, x) {}
  }

  lemma {:induction false} GroupsOwned(s: Loop, gs: seq<Group>, t: Tick, now: int)
    requires s.stash.Valid() && OwnStashes(s.stash) && AllWhole(t.kept, gs)
    ensures OwnStashes(StashGroups(s, gs, t, now).stash)
  {
    hide StashAfter, StashDrops, DroppedKeys, MergedAway, OwnStashes;
    if gs != [] {
      var n := |gs| - 1;
      GroupsOwned(s, gs[..n], t, now);
      assert Whole(t.kept, gs[n]);
      WholeHas(t.kept, gs[n]);
      var m := StashGroups(s, gs[..n], t, now);
      StashOwned(m.stash, gs[n], t.verdicts, now, Some(m.generation));
    }
  }

  lemma LeavesOwned(d: Stashes, r: Stashes)
    requires OwnStashes(d) && Leaves(d, r)
    ensures OwnStashes(r)
  {
  }

  lemma DeferringWhole(s: Loop, a: Action, n: nat)
    requires WholePlans(s) && n <= |Deferring(s, a)|
    ensures AllWhole(TickIn(s).kept, Deferring(s, a)[..n])
  {
    hide FinalPlan, Whole;
    if Deferring(s, a) != [] { FinalWhole(s, a); }
  }

  lemma NextOwned(s: Loop, a: Action)
    requires s.stash.Valid() && Enabled(s, a) && WholePlans(s) && OwnStashes(s.stash)
    ensures OwnStashes(Next(s, a).stash)
  {
    hide Next, Enabled, OwnStashes, WholePlans, Leaves, Deferring, TickIn, ClockOf, StashGroups, Core;
    NextDerived(s, a);
    var n :| 0 <= n <= |Deferring(s, Core(a))| && Leaves(StashedTo(s, Core(a), n), Next(s, a).stash);
    DeferringWhole(s, Core(a), n);
    GroupsOwned(s, Deferring(s, Core(a))[..n], TickIn(s), ClockOf(Core(a)));
    LeavesOwned(StashedTo(s, Core(a), n), Next(s, a).stash);
  }

  /** In every run, every stash holds messages of its own conversation only. */
  lemma {:induction false} StashesAreTheirOwn(ss: seq<Loop>, acts: seq<Action>, i: nat)
    requires IsRun(ss, acts) && i <= |acts|
    ensures forall c, e :: c in ss[i].stash.at && e in ss[i].stash.at[c].entries ==> e.message.conversation == c
  {
    hide Next, Enabled, WholePlans, TidyStash;
    if i == 0 {
      RunStart(ss, acts);
    } else {
      StashesAreTheirOwn(ss, acts, i - 1);
      RunWhole(ss, acts, i - 1);
      RunShape(ss, acts, i - 1);
      RunStep(ss, acts, i - 1);
      assert OwnStashes(ss[i - 1].stash);
      NextOwned(ss[i - 1], acts[i - 1]);
      assert OwnStashes(ss[i].stash);
    }
  }

  // ---------------------------------------------------------------------
  // No denied conversation is aboard
  // ---------------------------------------------------------------------

  ghost predicate FromEither(floored: seq<Message>, es: seq<StashEntry>, m: Message) {
    m in floored || exists e :: e in es && e.message == m
  }

  lemma LoadEntryFrom(c: Cargo, e: StashEntry, floored: seq<Message>, vs: Verdicts, gen: Generation, m: Message)
    requires KeysOf(c.messages) == c.late && Labelled(c) && m in LoadEntry(c, e, floored, vs, gen).messages
    ensures m in c.messages || m in floored || m == e.message
  {
  }

  lemma EitherGrows(floored: seq<Message>, es: seq<StashEntry>, e: StashEntry, m: Message)
    requires FromEither(floored, es, m) || m in floored || m == e.message
    ensures FromEither(floored, es + [e], m)
  {
    assert e in es + [e];
    if m !in floored && m != e.message {
      var x :| x in es && x.message == m;
      assert x in es + [e];
    }
  }

  lemma NothingLoaded(floored: seq<Message>, vs: Verdicts, gen: Generation)
    ensures LoadHeld([], floored, vs, gen).messages == []
  {
  }

  lemma {:induction false} LoadHeldFrom(es: seq<StashEntry>, floored: seq<Message>, vs: Verdicts, gen: Generation, m: Message)
    requires m in LoadHeld(es, floored, vs, gen).messages
    ensures FromEither(floored, es, m)
  {
    hide LoadHeld, LoadEntry, FromEither, Union, Labelled;
    if es == [] {
      NothingLoaded(floored, vs, gen);
    } else {
      var n := |es| - 1;
      var init, e := es[..n], es[n];
      assert es == init + [e];
      LoadHeldSnoc(init, e, floored, vs, gen);
      LoadEntryFrom(LoadHeld(init, floored, vs, gen), e, floored, vs, gen, m);
      if m in LoadHeld(init, floored, vs, gen).messages { LoadHeldFrom(init, floored, vs, gen, m); }
      EitherGrows(floored, init, e, m);
    }
  }

  lemma {:induction false} LoadFreshFrom(c: Cargo, floored: seq<Message>, vs: Verdicts, m: Message)
    requires Labelled(c) && m in LoadFresh(c, floored, vs).messages
    ensures m in c.messages || m in floored
  {
    hide LoadFresh, Union, Labelled;
    if floored == [] {
      LoadFreshSnoc(c, [], m, vs);
    } else {
      var n := |floored| - 1;
      var init, x := floored[..n], floored[n];
      assert floored == init + [x];
      LoadFreshSnoc(c, init, x, vs);
      if m in LoadFresh(c, init, vs).messages { LoadFreshFrom(c, init, vs, m); }
    }
  }

  /** Whatever a covering turn carries belongs to a conversation with a fresh message aboard. */
  lemma CargoConversation(d: Stashes, floored: seq<Message>, vs: Verdicts, gen: Generation, m: Message)
    requires OwnStashes(d) && m in Cover(d, floored, vs, gen).messages
    ensures m.conversation in ConversationsOf(floored)
  {
    hide LoadHeld, LoadFresh;
    var cs := CoveredBy(d, floored);
    if m in floored {
      var i :| 0 <= i < |floored| && floored[i] == m;
      assert ConversationsOf(floored)[i] == m.conversation;
    } else {
      var es := HeldEntries(d.at, cs);
      LoadFreshFrom(LoadHeld(es, floored, vs, gen), floored, vs, m);
      LoadHeldFrom(es, floored, vs, gen, m);
      var e :| e in es && e.message == m;
      var c :| c in cs && e in d.at[c].entries;
      assert Owned(d.at[c].entries, c);
    }
  }

  /** No message, fresh or held back, of a conversation denied the floor in a tick is aboard the turn that tick ends in. */
  lemma NoDeniedAboard(ss: seq<Loop>, acts: seq<Action>, k: nat, j: nat, m: Message)
    requires TickRuns(ss, acts, k, j) && ss[j].phase.CoverTurn? && m in ss[j].phase.cargo.messages
    ensures Reply(m.conversation, Denied) !in Replies(ss, acts, k, j)
  {
    hide Enabled, Next, Act, PollStep, LastPlan, Cover, CoveredBy, Sorted, TickOf;
    RunBoarded(ss, acts, k, j);
    StashesAreTheirOwn(ss, acts, j);
    OwnIsOwn(ss[j].stash);
    var b := acts[k].batch;
    CargoConversation(ss[j].stash, ss[j].phase.floored, TickOf(b).verdicts, b.generation, m);
    var i :| 0 <= i < |ss[j].phase.floored| && ConversationsOf(ss[j].phase.floored)[i] == m.conversation;
    var x := ss[j].phase.floored[i];
    FlooredIsKept(ss, acts, k, j, x);
  }

  lemma OwnIsOwn(d: Stashes)
    requires forall c, e :: c in d.at && e in d.at[c].entries ==> e.message.conversation == c
    ensures OwnStashes(d)
  {
  }

  lemma FlooredIsKept(ss: seq<Loop>, acts: seq<Action>, k: nat, j: nat, x: Message)
    requires TickRuns(ss, acts, k, j) && ss[j].phase.CoverTurn? && x in ss[j].phase.floored
    ensures Reply(x.conversation, Denied) !in Replies(ss, acts, k, j)
  {
    hide Enabled, Next, Act, PollStep, LastPlan, Cover, CoveredBy, TickOf, Heard, AllWhole, Apart, AskedRightly;
    RunBoarded(ss, acts, k, j);
    assert Cleared(acts[k].batch.kept, LastPlan(ss[j - 1], acts[j - 1]), Replies(ss, acts, k, j), x);
    HeardIff(Replies(ss, acts, k, j), x.conversation, Denied);
  }

  // ---------------------------------------------------------------------
  // Other conversations' stashes are left alone
  // ---------------------------------------------------------------------

  /** `c` is out of the stash or as it was. */
  ghost predicate Still(d: Stashes, r: Stashes, c: string) {
    c in r.at ==> c in d.at && r.at[c] == d.at[c]
  }

  lemma StashGroupOther(s: Loop, g: Group, t: Tick, now: int, c: string)
    requires Tidy(s.stash) && g.messages != [] && g.conversation != c
    ensures Still(s.stash, StashGroup(s, g, t, now).stash, c)
  {
    hide StashAfter, StashDrops, TidyStash, DroppedKeys, MergedAway;
    StashKeepsNewest(s.stash, g.conversation, g.messages, t.verdicts, now, Some(s.generation));
  }

  lemma SameStill(d: Stashes, c: string)
    ensures Still(d, d, c)
  {
  }

  lemma StillChain(a: Stashes, b: Stashes, r: Stashes, c: string)
    requires Still(a, b, c) && Still(b, r, c)
    ensures Still(a, r, c)
  {
  }

  lemma {:induction false} OthersStay(s: Loop, gs: seq<Group>, from: nat, t: Tick, now: int, c: string)
    requires Tidy(s.stash) && Filled(gs) && from <= |gs| && forall n :: from <= n < |gs| ==> gs[n].conversation != c
    ensures Still(StashGroups(s, gs[..from], t, now).stash, StashGroups(s, gs, t, now).stash, c)
  {
    hide StashGroup, StashGroups, TidyStash, OnlyStashed, Still;
    if from == |gs| {
      assert gs[..from] == gs;
      SameStill(StashGroups(s, gs, t, now).stash, c);
    } else {
      var n := |gs| - 1;
      var m := StashGroups(s, gs[..n], t, now);
      assert gs[..n][..from] == gs[..from] && gs[n] in gs;
      OthersStay(s, gs[..n], from, t, now, c);
      StashGroupsShape(s, gs[..n], t, now);
      StashGroupOther(m, gs[n], t, now, c);
      StashGroupsSnoc(s, gs, t, now);
      StillChain(StashGroups(s, gs[..from], t, now).stash, m.stash, StashGroups(s, gs, t, now).stash, c);
    }
  }

  lemma NotNamed(kept: seq<Message>, gs: seq<Group>, c: string)
    requires AllWhole(kept, gs) && Filled(gs) && !Writes(kept, c)
    ensures forall n :: 0 <= n < |gs| ==> gs[n].conversation != c
  {
    forall n | 0 <= n < |gs| ensures gs[n].conversation != c {
      assert Whole(kept, gs[n]) && gs[n] in gs;
      WholeHas(kept, gs[n]);
      assert gs[n].messages[0] in gs[n].messages;
    }
  }

  lemma DeferringFilled(s: Loop, a: Action, n: nat)
    requires Shape(s) && n <= |Deferring(s, a)|
    ensures Filled(Deferring(s, a)[..n])
  {
    hide FinalPlan;
    if Deferring(s, a) != [] { FinalPlanFilled(s, a); }
  }

  /** A step leaves `c`'s stash alone, or takes it out, unless the tick it ends planning for kept a message of `c`. */
  lemma NextStill(s: Loop, a: Action, c: string)
    requires Shape(s) && Enabled(s, a) && WholePlans(s) && !Writes(TickIn(s).kept, c)
    ensures Still(s.stash, Next(s, a).stash, c)
  {
    hide Next, Enabled, WholePlans, Deferring, TickIn, ClockOf, StashGroups, Core, Writes, TidyStash;
    NextDerived(s, a);
    var n :| 0 <= n <= |Deferring(s, Core(a))| && Leaves(StashedTo(s, Core(a), n), Next(s, a).stash);
    var gs := Deferring(s, Core(a))[..n];
    DeferringWhole(s, Core(a), n);
    DeferringFilled(s, Core(a), n);
    NotNamed(TickIn(s).kept, gs, c);
    OthersStay(s, gs, 0, TickIn(s), ClockOf(Core(a)), c);
    assert gs[..0] == [];
    NoneStashed(s, TickIn(s), ClockOf(Core(a)));
  }

  /** No poll between `j` and `i` kept a message of `c`. */
  ghost predicate Silent(acts: seq<Action>, j: nat, i: nat, c: string)
    requires i <= |acts|
  {
    forall n :: j <= n < i && acts[n].PollReturns? ==> !Writes(acts[n].batch.kept, c)
  }

  lemma {:induction false} StashIsRemembered(ss: seq<Loop>, acts: seq<Action>, j: nat, i: nat, c: string)
    requires IsRun(ss, acts) && j <= i <= |acts| && !HasTick(ss[j].phase) && Silent(acts, j, i, c)
    ensures Still(ss[j].stash, ss[i].stash, c) && !Writes(TickIn(ss[i]).kept, c)
    decreases i
  {
    hide Next, Enabled, WholePlans, Shape, Writes;
    if i == j {
      NobodyWrites(c);
    } else {
      StashIsRemembered(ss, acts, j, i - 1, c);
      RunWhole(ss, acts, i - 1);
      RunShape(ss, acts, i - 1);
      RunStep(ss, acts, i - 1);
      NextStill(ss[i - 1], acts[i - 1], c);
      NextTick(ss[i - 1], acts[i - 1]);
      NobodyWrites(c);
      if acts[i - 1].PollReturns? && |acts[i - 1].batch.results| == |acts[i - 1].batch.messages| { TickKeeps(acts[i - 1].batch); }
    }
  }

  lemma NobodyWrites(c: string)
    ensures !Writes([], c)
  {
  }
}
