/** The structure every reachable state of the reply loop has, and what follows from it: turns
    run one at a time, a tick starts at most one deferred turn, and a stopped loop acks, stashes
    and spawns nothing. */
module LoopShape {
  import opened OrderedMaps
  import opened Messages
  import opened Stashing
  import opened Covering
  import opened ReplyLoop

  // ---------------------------------------------------------------------
  // The invariant
  // ---------------------------------------------------------------------

  predicate Spawning(p: Phase) {
    p.CoverTurn? || p.OverrunTurn? || p.RetryTurn?
  }

  /** Busy with a batch. */
  predicate HasTick(p: Phase) {
    p.Noticing? || p.Acking? || p.Planning?
  }

  /** The acked messages only the tick itself knows of. */
  function InHand(p: Phase): seq<Message> {
    if p.Acking? || p.Planning? then p.tick.kept else []
  }

  ghost predicate Filled(gs: seq<Group>) {
    forall g :: g in gs ==> g.messages != []
  }

  ghost predicate FilledPlan(p: Plan) {
    Filled(p.waiting) && Filled(p.deferred)
  }

  /** A tick whose deferred turn has started does nothing more than hand its floor back. */
  predicate MayHaveServed(p: Phase) {
    p.Idle? || (p.RetryRelease? && !p.more)
  }

  /** A turn being spawned has something of its own to deliver. */
  predicate Manned(p: Phase) {
    && (p.CoverTurn? ==> p.floored != [])
    && (p.OverrunTurn? || p.RetryTurn? ==> p.late.entries != [])
  }

  ghost predicate Shape(s: Loop) {
    && Tidy(s.stash)
    && (s.inFlight <==> Spawning(s.phase))
    && s.covering == (if s.phase.CoverTurn? then s.phase.covered else [])
    && (s.stopped ==> s.unhanded == [] && forall c :: c in s.stash.at ==> c in s.covering)
    && (!s.stopped ==> s.unhanded == InHand(s.phase))
    && s.deferredStarts <= (if MayHaveServed(s.phase) then 1 else 0)
    && (s.phase.Planning? ==> FilledPlan(s.phase.plan))
    && (s.phase.HandingBack? ==> s.stopped)
    && Manned(s.phase)
  }

  /** No turn is being spawned and nothing acked is in the tick's hands. */
  ghost predicate Between(s: Loop) {
    && Tidy(s.stash) && !s.inFlight && s.covering == [] && s.unhanded == [] && s.deferredStarts == 0
    && (s.stopped ==> forall c :: c !in s.stash.at)
  }

  // ---------------------------------------------------------------------
  // Every step keeps it
  // ---------------------------------------------------------------------

  lemma TidyClear(d: Stashes, cs: seq<string>)
    requires Tidy(d)
    ensures Tidy(ClearAll(d, cs))
  {
  }

  lemma FlushShape(s: Loop)
    requires Tidy(s.stash)
    ensures Tidy(FlushOnStop(s).stash) && FlushOnStop(s).unhanded == []
    ensures forall c :: c in FlushOnStop(s).stash.at ==> c in s.covering
  {
    TidyClear(s.stash, Uncovered(s.stash.keys, s.covering));
  }

  lemma EndTickShape(s: Loop)
    requires Tidy(s.stash) && !s.inFlight && s.deferredStarts <= 1
    ensures Shape(EndTick(s)) && EndTick(s).phase.Idle?
  {
    FlushShape(s.(phase := Idle, unhanded := [], covering := []));
  }

  lemma WalkShape(s: Loop, cs: seq<string>, now: int)
    requires Between(s)
    ensures Shape(WalkRetries(s, cs, now))
  {
    EndTickShape(s);
  }

  lemma SpawnShape(s: Loop, c: string, next: Stash -> Phase)
    requires Between(s) && c in s.stash.at
    requires var p := next(s.stash.at[c]); (p.OverrunTurn? || p.RetryTurn?) && p.late == s.stash.at[c]
    ensures Shape(SpawnHeldBack(s, c, next))
  {
    assert c in s.stash.at && !s.stopped;
  }

  lemma ServiceShape(s: Loop, now: int)
    requires Between(s)
    ensures Shape(ServiceDeferred(s, now))
  {
    if ExpiredOrder(s.stash, now) != [] {
      var c := ExpiredOrder(s.stash, now)[0];
      assert c in ExpiredOrder(s.stash, now);
      SpawnShape(s, c, late => OverrunTurn(late, now));
    } else {
      WalkShape(s, RetryOrder(s.stash, now), now);
    }
  }

  lemma {:induction false} GroupsFilled(kept: seq<Message>)
    ensures Filled(GroupsOf(kept))
  {
    if kept != [] {
      var n := |kept| - 1;
      GroupsFilled(kept[..n]);
      if HasGroup(GroupsOf(kept[..n]), kept[n].conversation) { AddFilled(GroupsOf(kept[..n]), kept[n]); }
    }
  }

  lemma {:induction false} AddFilled(gs: seq<Group>, m: Message)
    requires Filled(gs) && HasGroup(gs, m.conversation)
    ensures Filled(AddToGroup(gs, m))
  {
    var n := |gs| - 1;
    assert gs == gs[..n] + [gs[n]];
    if gs[n].conversation != m.conversation { AddFilled(gs[..n], m); }
  }

  lemma {:induction false} SkipFilled(p: Plan)
    requires FilledPlan(p)
    ensures FilledPlan(SkipOperatorOnly(p))
    decreases |p.waiting|
  {
    if p.waiting != [] && !HasPeer(p.waiting[0]) {
      SkipFilled(p.(waiting := p.waiting[1..], floored := p.floored + p.waiting[0].messages));
    }
  }

  /** Stashing changes the stash, the ledger and the history only. */
  ghost predicate OnlyStashed(s: Loop, r: Loop) {
    && r.(stash := s.stash, ledger := s.ledger, effects := s.effects) == s
    && s.effects <= r.effects && forall i :: |s.effects| <= i < |r.effects| ==> r.effects[i] == Stashed
  }

  lemma PutShape(s: Loop, d: Stashes, dropped: multiset<HeldKey>, folded: multiset<HeldKey>)
    ensures OnlyStashed(s, Put(s, d, dropped, folded))
  {
  }

  lemma StashGroupShape(s: Loop, g: Group, t: Tick, now: int)
    requires Tidy(s.stash) && g.messages != []
    ensures Tidy(StashGroup(s, g, t, now).stash) && OnlyStashed(s, StashGroup(s, g, t, now))
  {
    var gen := Some(s.generation);
    StashStaysTidy(s.stash, g.conversation, g.messages, t.verdicts, now, gen);
    PutShape(s, StashAfter(s.stash, g.conversation, g.messages, t.verdicts, now, gen),
             DroppedKeys(StashDrops(s.stash, g.conversation, g.messages, t.verdicts, now, gen)),
             MergedAway(s.stash, g.conversation, g.messages));
  }

  lemma StashGroupsSnoc(s: Loop, gs: seq<Group>, t: Tick, now: int)
    requires s.stash.Valid() && gs != []
    ensures StashGroups(s, gs, t, now) == StashGroup(StashGroups(s, gs[..|gs| - 1], t, now), gs[|gs| - 1], t, now)
  {
  }

  lemma {:induction false} StashGroupsShape(s: Loop, gs: seq<Group>, t: Tick, now: int)
    requires Tidy(s.stash) && Filled(gs)
    ensures Tidy(StashGroups(s, gs, t, now).stash) && OnlyStashed(s, StashGroups(s, gs, t, now))
  {
    if gs != [] {
      var n := |gs| - 1;
      assert gs[n] in gs;
      StashGroupsShape(s, gs[..n], t, now);
      StashGroupShape(StashGroups(s, gs[..n], t, now), gs[n], t, now);
    }
  }

  lemma DeferShape(s: Loop, t: Tick, p: Plan, now: int)
    requires Shape(s) && (s.phase.Acking? || s.phase.Planning?) && FilledPlan(p) && !s.stopped
    ensures Shape(FinishPlan(s, t, p, now))
  {
    hide StashGroups, ServiceDeferred, TidyStash, SpawnHeldBack, Cover, CoveredBy;
    StashGroupsShape(s, p.deferred, t, now);
    var stashed := StashGroups(s, p.deferred, t, now).(unhanded := []);
    if p.floored == [] { ServiceShape(stashed, now); }
  }

  lemma FinishShape(s: Loop, t: Tick, p: Plan, now: int)
    requires Shape(s) && (s.phase.Acking? || s.phase.Planning?) && FilledPlan(p)
    ensures Shape(FinishPlan(s, t, p, now))
  {
    hide StashGroups, ServiceDeferred, TidyStash;
    if s.stopped {
      if p.toRelease == [] { EndTickShape(s); }
    } else {
      DeferShape(s, t, p, now);
    }
  }

  lemma ContinueShape(s: Loop, t: Tick, p: Plan, now: int)
    requires Shape(s) && (s.phase.Acking? || s.phase.Planning?) && FilledPlan(p) && s.phase.tick == t
    ensures Shape(ContinuePlan(s, t, p, now))
  {
    hide FinishPlan, TidyStash, SkipOperatorOnly;
    SkipFilled(p);
    var q := SkipOperatorOnly(p);
    if q.waiting == [] { FinishShape(s, t, q, now); }
  }

  lemma CoverEndShape(s: Loop, started: bool)
    requires Shape(s) && s.phase.CoverTurn?
    ensures Between(if started then CoverStarted(s) else CoverFailed(s))
  {
    TidyClear(s.stash, s.phase.covered);
    FlushShape(s.(covering := []));
  }

  lemma AfterCoverShape(s: Loop, floors: seq<string>, now: int)
    requires Between(s)
    ensures Shape(AfterCoverTurn(s, floors, now))
  {
    if floors == [] {
      if s.stopped { EndTickShape(s); } else { ServiceShape(s, now); }
    }
  }

  lemma OverrunEndShape(s: Loop, late: Stash, at: int, started: bool)
    requires Shape(s) && s.phase == OverrunTurn(late, at)
    ensures
      var t := HeldBackEnded(s, late, started);
      Shape(if started then EndTick(t) else WalkRetries(t, RetryOrder(t.stash, at), at))
  {
    var t := HeldBackEnded(s, late, started);
    if started { EndTickShape(t); } else { WalkShape(t, RetryOrder(t.stash, at), at); }
  }

  lemma SpawnStepShape(s: Loop, started: bool, now: int)
    requires Shape(s) && Spawning(s.phase)
    ensures Shape(SpawnStep(s, started, now))
  {
    match s.phase
    case CoverTurn(floors, _, _, _) =>
      CoverEndShape(s, started);
      AfterCoverShape(if started then CoverStarted(s) else CoverFailed(s), floors, now);
    case OverrunTurn(late, at) => OverrunEndShape(s, late, at, started);
    case RetryTurn(c, late) =>
  }

  lemma RetryStepShape(s: Loop, answer: FloorAnswer)
    requires Shape(s) && s.phase.RetryAsk?
    ensures Shape(RetryStep(s, answer))
  {
    EndTickShape(s);
    WalkShape(s, s.phase.rest, s.phase.at);
    if s.phase.conversation in s.stash.at { SpawnShape(s, s.phase.conversation, late => RetryTurn(s.phase.conversation, late)); }
  }

  lemma AfterPollShape(s: Loop, b: Batch, t: Tick, now: int)
    requires Shape(s) && s.phase.Polling? && !s.stopped
    ensures Shape(AfterPoll(s, b, t, now))
  {
    if !b.anyReal && b.messages == [] { ServiceShape(s, now); }
  }

  lemma PollStepShape(s: Loop, b: Batch, now: int)
    requires Shape(s) && s.phase.Polling? && ValidBatch(b)
    ensures Shape(PollStep(s, b, now))
  {
    if s.stopped { EndTickShape(s); } else { AfterPollShape(s.(generation := b.generation), b, TickOf(b), now); }
  }

  lemma AckStepShape(s: Loop, now: int)
    requires Shape(s) && (s.phase.QuietAck? || s.phase.Acking?)
    ensures Shape(AckStep(s, now))
  {
    EndTickShape(s);
    if !s.stopped {
      if s.phase.QuietAck? || s.phase.tick.kept == [] {
        ServiceShape(s, now);
      } else {
        GroupsFilled(s.phase.tick.kept);
        ContinueShape(s, s.phase.tick, Plan(GroupsOf(s.phase.tick.kept), [], [], []), now);
      }
    }
  }

  lemma PlanStepShape(s: Loop, answer: FloorAnswer, now: int)
    requires Shape(s) && s.phase.Planning? && s.phase.plan.waiting != []
    ensures Shape(ContinuePlan(s, s.phase.tick, Answered(s.phase.plan, answer), now))
  {
    assert s.phase.plan.waiting[0] in s.phase.plan.waiting;
    assert FilledPlan(Answered(s.phase.plan, answer));
    ContinueShape(s, s.phase.tick, Answered(s.phase.plan, answer), now);
  }

  lemma ReleaseStepShape(s: Loop, now: int)
    requires Shape(s) && (s.phase.HandingBack? || s.phase.Releasing? || s.phase.RetryRelease?)
    ensures Shape(ReleaseStep(s, now))
  {
    match s.phase
    case HandingBack(_, others) => EndTickShape(s);
    case Releasing(_, others) => AfterCoverShape(s, others, now);
    case RetryRelease(_, rest, more, at) => if more { WalkShape(s, rest, at); } else { EndTickShape(s); }
  }

  lemma ActShape(s: Loop, a: Action)
    requires Shape(s) && Ready(s, a)
    ensures Shape(Act(s, a))
  {
    match a
    case TickFires =>
    case PollFails => EndTickShape(s);
    case PollReturns(b, now) => PollStepShape(s, b, now);
    case AckReturns(now) => AckStepShape(s, now);
    case NoticeReturns => EndTickShape(s);
    case FloorAnswers(answer, now) => if s.phase.Planning? { PlanStepShape(s, answer, now); } else { RetryStepShape(s, answer); }
    case SpawnDecided(started, now) => SpawnStepShape(s, started, now);
    case ReleaseReturns(now) => ReleaseStepShape(s, now);
    case Stop => FlushShape(s);
  }

  lemma AbandonShape(s: Loop, ks: Keys)
    requires Tidy(s.stash) && s.deferredStarts <= 1
    ensures Shape(Abandon(s, ks)) && Abandon(s, ks).phase.Idle?
  {
    EndTickShape(s.(inFlight := false, ledger := s.ledger.(lost := s.ledger.lost + ks)));
  }

  lemma ReportingShape(s: Loop, a: Action)
    requires Shape(s) && Ready(s, a) && Reports(s, a)
    ensures Shape(ThrownReporting(s, a)) && ThrownReporting(s, a).phase.Idle?
  {
    match a
    case PollReturns(b, _) => EndTickShape(if s.stopped then s else s.(generation := b.generation));
    case SpawnDecided(_, _) =>
      if s.phase.CoverTurn? {
        CoverEndShape(s, false);
        EndTickShape(CoverFailed(s));
      } else {
        AbandonShape(s.(effects := s.effects + [TurnEnded]), Aboard(s.phase));
      }
    case _ => AbandonShape(s, multiset(KeysOf(s.unhanded)));
  }

  lemma LedgerApart(s: Loop, r: Loop, l: Ledger)
    requires OnlyStashed(s, r)
    ensures OnlyStashed(s, r.(ledger := l))
  {
  }

  lemma OnlyStashedChain(s: Loop, m: Loop, r: Loop)
    requires OnlyStashed(s, m) && OnlyStashed(m, r)
    ensures OnlyStashed(s, r)
  {
  }

  lemma StashUpToShape(s: Loop, gs: seq<Group>, g: nat, d: nat, t: Tick, now: int)
    requires Tidy(s.stash) && Filled(gs) && g < |gs| && d <= |GroupDrops(s, gs, g, t, now)|
    ensures Tidy(StashUpTo(s, gs, g, d, t, now).stash) && OnlyStashed(s, StashUpTo(s, gs, g, d, t, now))
  {
    hide StashGroup, StashGroups, OnlyStashed, TidyStash;
    assert Filled(gs[..g]) && gs[g].messages != [] by { assert gs[g] in gs; }
    StashGroupsShape(s, gs[..g], t, now);
    var before := StashGroups(s, gs[..g], t, now);
    StashGroupShape(before, gs[g], t, now);
    OnlyStashedChain(s, before, StashGroup(before, gs[g], t, now));
    LedgerApart(s, StashGroup(before, gs[g], t, now), StashUpTo(s, gs, g, d, t, now).ledger);
  }

  lemma FinalPlanFilled(s: Loop, a: Action)
    requires Shape(s) && s.phase.Planning? && s.phase.plan.waiting != [] && a.FloorAnswers?
    ensures FilledPlan(FinalPlan(s, a))
  {
    assert s.phase.plan.waiting[0] in s.phase.plan.waiting;
    assert FilledPlan(Answered(s.phase.plan, a.answer));
    SkipFilled(Answered(s.phase.plan, a.answer));
  }

  lemma DroppingShape(s: Loop, a: Action, g: nat, d: nat)
    requires Shape(s) && CanDrop(s, a, g, d)
    ensures Shape(ThrownDropping(s, a, g, d)) && ThrownDropping(s, a, g, d).phase.Idle?
  {
    FinalPlanFilled(s, a);
    var q, t := FinalPlan(s, a), s.phase.tick;
    StashUpToShape(s, q.deferred, g, d, t, a.now);
    AbandonShape(StashUpTo(s, q.deferred, g, d, t, a.now),
                 DroppedKeys(GroupDrops(s, q.deferred, g, t, a.now)[d..]) + GroupKeys(q.deferred[g + 1..]) + multiset(KeysOf(q.floored)));
  }

  lemma ThrownShape(s: Loop, a: Action, site: Site)
    requires Shape(s) && CanThrow(s, a, site)
    ensures Shape(Thrown(s, a, site)) && Thrown(s, a, site).phase.Idle?
  {
    match site
    case Reporting => ReportingShape(s, a);
    case Recorded => EndTickShape(HeldBackEnded(s, s.phase.late, false));
    case Announcing =>
      var r := Act(s, a);
      ActShape(s, a);
      AbandonShape(r.(effects := r.effects[..|r.effects| - 1], turns := s.turns), Aboard(r.phase));
    case Dropping(g, d) => DroppingShape(s, a, g, d);
  }

  lemma NextShape(s: Loop, a: Action)
    requires Shape(s) && Enabled(s, a)
    ensures Shape(Next(s, a))
  {
    if a.TickThrows? { ThrownShape(s, a.during, a.site); } else { ActShape(s, a); }
  }

  lemma {:induction false} RunShape(ss: seq<Loop>, acts: seq<Action>, i: nat)
    requires IsRun(ss, acts) && i <= |acts|
    ensures Shape(ss[i])
  {
    hide Next, Enabled;
    if i == 0 {
      RunStart(ss, acts);
    } else {
      RunShape(ss, acts, i - 1);
      RunStep(ss, acts, i - 1);
      NextShape(ss[i - 1], acts[i - 1]);
    }
  }
}
