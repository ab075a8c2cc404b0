/** What `stop()` guarantees, and that turns never overlap. */
module LoopStop {
  import opened OrderedMaps
  import opened Messages
  import opened Stashing
  import opened Covering
  import opened ReplyLoop
  import opened LoopShape

  // ---------------------------------------------------------------------
  // Histories
  // ---------------------------------------------------------------------

  /** A turn is being spawned at the end of this history. */
  predicate Open(es: seq<Effect>) {
    es != [] && (es[|es| - 1] == TurnStarted || (es[|es| - 1] != TurnEnded && Open(es[..|es| - 1])))
  }

  /** No turn starts while another is running, and only a running turn ends. */
  predicate OneAtATime(es: seq<Effect>) {
    es == [] || (var init := es[..|es| - 1];
      && OneAtATime(init)
      && (es[|es| - 1] == TurnStarted ==> !Open(init))
      && (es[|es| - 1] == TurnEnded ==> Open(init)))
  }

  lemma Append(es: seq<Effect>, e: Effect)
    ensures Open(es + [e]) <==> e == TurnStarted || (e != TurnEnded && Open(es))
    ensures OneAtATime(es + [e]) <==> OneAtATime(es) && (e == TurnStarted ==> !Open(es)) && (e == TurnEnded ==> Open(es))
  {
    assert (es + [e])[..|es|] == es;
  }

  /** Handing a floor back, ending a turn or asking for a floor; never an ack, a stash or a spawn. */
  predicate Harmless(e: Effect) {
    e == TurnEnded || e == FloorAsked
  }

  ghost predicate Serial(s: Loop) {
    OneAtATime(s.effects) && (Open(s.effects) <==> s.inFlight)
  }

  ghost predicate HarmlessSince(before: seq<Effect>, after: seq<Effect>) {
    before <= after && forall i :: |before| <= i < |after| ==> Harmless(after[i])
  }

  /** Nothing is taken off the books again. */
  ghost predicate Grows(l: Ledger, m: Ledger) {
    && l.admitted <= m.admitted && l.started <= m.started && l.dead <= m.dead
    && l.failed <= m.failed && l.merged <= m.merged && l.lost <= m.lost
  }

  /** `r` continues `s`: one turn at a time, nothing but harmless effects once stopped, books only added to. */
  ghost predicate Orderly(s: Loop, r: Loop) {
    && Grows(s.ledger, r.ledger)
    && (Serial(s) ==> Serial(r))
    && (s.stopped ==> r.stopped && HarmlessSince(s.effects, r.effects))
  }

  // ---------------------------------------------------------------------
  // Every step is orderly
  // ---------------------------------------------------------------------

  lemma EndTickOrderly(s: Loop)
    requires s.stash.Valid()
    ensures Orderly(s, EndTick(s))
  {
  }

  lemma WalkOrderly(s: Loop, cs: seq<string>, now: int)
    requires s.stash.Valid()
    ensures Orderly(s, WalkRetries(s, cs, now))
  {
    Append(s.effects, FloorAsked);
  }

  lemma SpawnOrderly(s: Loop, c: string, next: Stash -> Phase)
    requires c in s.stash.at && !s.inFlight && !s.stopped
    ensures Orderly(s, SpawnHeldBack(s, c, next))
  {
    Append(s.effects, TurnStarted);
  }

  lemma ServiceOrderly(s: Loop, now: int)
    requires s.stash.Valid() && !s.stopped
    ensures Orderly(s, ServiceDeferred(s, now))
  {
    WalkOrderly(s, RetryOrder(s.stash, now), now);
    if ExpiredOrder(s.stash, now) != [] && !s.inFlight {
      assert ExpiredOrder(s.stash, now)[0] in ExpiredOrder(s.stash, now);
      SpawnOrderly(s, ExpiredOrder(s.stash, now)[0], late => OverrunTurn(late, now));
    }
  }

  lemma AckOrderly(s: Loop, t: Tick)
    requires !s.stopped
    ensures Orderly(s, BeginAck(s, t))
  {
    Append(s.effects, AckStarted);
  }

  lemma {:induction false} StashGroupsOrderly(s: Loop, gs: seq<Group>, t: Tick, now: int)
    requires s.stash.Valid() && !s.stopped
    ensures Orderly(s, StashGroups(s, gs, t, now))
    ensures StashGroups(s, gs, t, now).stopped == s.stopped && StashGroups(s, gs, t, now).inFlight == s.inFlight
  {
    if gs != [] {
      var n := |gs| - 1;
      StashGroupsOrderly(s, gs[..n], t, now);
      Append(StashGroups(s, gs[..n], t, now).effects, Stashed);
    }
  }

  lemma FinishOrderly(s: Loop, t: Tick, p: Plan, now: int)
    requires s.stash.Valid() && !s.inFlight
    ensures Orderly(s, FinishPlan(s, t, p, now))
  {
    if !s.stopped {
      StashGroupsOrderly(s, p.deferred, t, now);
      var stashed := StashGroups(s, p.deferred, t, now).(unhanded := []);
      if p.floored == [] { ServiceOrderly(stashed, now); } else { Append(stashed.effects, TurnStarted); }
    }
  }

  lemma ContinueOrderly(s: Loop, t: Tick, p: Plan, now: int)
    requires s.stash.Valid() && !s.inFlight
    ensures Orderly(s, ContinuePlan(s, t, p, now))
  {
    FinishOrderly(s, t, SkipOperatorOnly(p), now);
    Append(s.effects, FloorAsked);
  }

  lemma AfterCoverOrderly(s: Loop, floors: seq<string>, now: int)
    requires s.stash.Valid()
    ensures Orderly(s, AfterCoverTurn(s, floors, now))
  {
    if floors == [] && !s.stopped { ServiceOrderly(s, now); }
  }

  lemma CoverStartedOrderly(s: Loop)
    requires s.stash.Valid() && s.phase.CoverTurn? && s.inFlight
    ensures Orderly(s, CoverStarted(s))
  {
    Append(s.effects, TurnEnded);
  }

  lemma CoverLostOrderly(s: Loop)
    requires s.stash.Valid() && s.phase.CoverTurn? && s.inFlight
    ensures Orderly(s, CoverLost(s))
  {
    Append(s.effects, TurnEnded);
  }

  lemma FlushOrderly(s: Loop)
    requires s.stash.Valid()
    ensures Orderly(s, FlushOnStop(s))
  {
  }

  lemma CoverEndOrderly(s: Loop, started: bool)
    requires Shape(s) && s.phase.CoverTurn?
    ensures Orderly(s, if started then CoverStarted(s) else CoverFailed(s))
  {
    if started {
      CoverStartedOrderly(s);
    } else {
      CoverLostOrderly(s);
      FlushOrderly(CoverLost(s));
      OrderlyChain(s, CoverLost(s), CoverFailed(s));
    }
  }

  lemma HeldBackEndOrderly(s: Loop, late: Stash, started: bool)
    requires s.inFlight
    ensures Orderly(s, HeldBackEnded(s, late, started))
  {
    Append(s.effects, TurnEnded);
  }

  lemma OrderlyChain(s: Loop, t: Loop, r: Loop)
    requires Orderly(s, t) && Orderly(t, r)
    ensures Orderly(s, r)
  {
  }

  lemma SpawnStepOrderly(s: Loop, started: bool, now: int)
    requires Shape(s) && Spawning(s.phase)
    ensures Orderly(s, SpawnStep(s, started, now))
  {
    match s.phase
    case CoverTurn(floors, _, _, _) =>
      var t := if started then CoverStarted(s) else CoverFailed(s);
      CoverEndOrderly(s, started);
      AfterCoverOrderly(t, floors, now);
      OrderlyChain(s, t, AfterCoverTurn(t, floors, now));
    case OverrunTurn(late, at) =>
      var t := HeldBackEnded(s, late, started);
      HeldBackEndOrderly(s, late, started);
      if started { EndTickOrderly(t); } else { WalkOrderly(t, RetryOrder(t.stash, at), at); }
      OrderlyChain(s, t, SpawnStep(s, started, now));
    case RetryTurn(c, late) =>
      HeldBackEndOrderly(s, late, started);
  }

  lemma RetryStepOrderly(s: Loop, answer: FloorAnswer)
    requires Shape(s) && s.phase.RetryAsk?
    ensures Orderly(s, RetryStep(s, answer))
  {
    WalkOrderly(s, s.phase.rest, s.phase.at);
    if s.phase.conversation in s.stash.at && !s.stopped {
      SpawnOrderly(s, s.phase.conversation, late => RetryTurn(s.phase.conversation, late));
    }
  }

  lemma AfterPollOrderly(s: Loop, b: Batch, t: Tick, now: int)
    requires s.stash.Valid() && !s.stopped
    ensures Orderly(s, AfterPoll(s, b, t, now))
  {
    ServiceOrderly(s, now);
    AckOrderly(s, t);
  }

  lemma AckStepOrderly(s: Loop, now: int)
    requires Shape(s) && (s.phase.QuietAck? || s.phase.Acking?)
    ensures Orderly(s, AckStep(s, now))
  {
    if !s.stopped {
      ServiceOrderly(s, now);
      if s.phase.Acking? { ContinueOrderly(s, s.phase.tick, Plan(GroupsOf(s.phase.tick.kept), [], [], []), now); }
    }
  }

  lemma ReleaseStepOrderly(s: Loop, now: int)
    requires Shape(s) && (s.phase.HandingBack? || s.phase.Releasing? || s.phase.RetryRelease?)
    ensures Orderly(s, ReleaseStep(s, now))
  {
    match s.phase
    case HandingBack(_, others) =>
    case Releasing(_, others) => AfterCoverOrderly(s, others, now);
    case RetryRelease(_, rest, more, at) => WalkOrderly(s, rest, at);
  }

  lemma ActOrderly(s: Loop, a: Action)
    requires Shape(s) && Ready(s, a)
    ensures Orderly(s, Act(s, a))
  {
    match a
    case TickFires =>
    case PollFails =>
    case PollReturns(b, now) => if !s.stopped { AfterPollOrderly(s.(generation := b.generation), b, TickOf(b), now); }
    case AckReturns(now) => AckStepOrderly(s, now);
    case NoticeReturns => if !s.stopped { AckOrderly(s, s.phase.tick); }
    case FloorAnswers(answer, now) =>
      if s.phase.Planning? {
        ContinueOrderly(s, s.phase.tick, Answered(s.phase.plan, answer), now);
      } else {
        RetryStepOrderly(s, answer);
      }
    case SpawnDecided(started, now) => SpawnStepOrderly(s, started, now);
    case ReleaseReturns(now) => ReleaseStepOrderly(s, now);
    case Stop =>
  }

  lemma AbandonOrderly(s: Loop, r: Loop, ks: Keys)
    requires r.stash.Valid() && Grows(s.ledger, r.ledger)
    requires Serial(s) ==> OneAtATime(r.effects) && !Open(r.effects)
    requires s.stopped ==> r.stopped && HarmlessSince(s.effects, r.effects)
    ensures Orderly(s, Abandon(r, ks))
  {
    var m := r.(inFlight := false, ledger := r.ledger.(lost := r.ledger.lost + ks));
    assert Orderly(s, m);
    EndTickOrderly(m);
    OrderlyChain(s, m, EndTick(m));
  }

  lemma ReportingOrderly(s: Loop, a: Action)
    requires Shape(s) && Ready(s, a) && Reports(s, a)
    ensures Orderly(s, ThrownReporting(s, a))
  {
    match a
    case PollReturns(b, _) => EndTickOrderly(if s.stopped then s else s.(generation := b.generation));
    case SpawnDecided(_, _) =>
      if s.phase.CoverTurn? {
        CoverEndOrderly(s, false);
        EndTickOrderly(CoverFailed(s));
        OrderlyChain(s, CoverFailed(s), EndTick(CoverFailed(s)));
      } else {
        Append(s.effects, TurnEnded);
        AbandonOrderly(s, s.(effects := s.effects + [TurnEnded]), Aboard(s.phase));
      }
    case _ => AbandonOrderly(s, s, multiset(KeysOf(s.unhanded)));
  }

  lemma AnnouncingOrderly(s: Loop, r: Loop)
    requires Orderly(s, r) && r.stash.Valid() && Announces(s, r)
    ensures Orderly(s, ThrownAnnouncing(s, r)) && !s.stopped
  {
    var es := r.effects[..|r.effects| - 1];
    assert r.effects == es + [TurnStarted];
    Append(es, TurnStarted);
    assert r.effects[|es|] == TurnStarted;
    AbandonOrderly(s, r.(effects := es, turns := s.turns), Aboard(r.phase));
  }

  lemma {:induction false} StashingStaysSerial(es: seq<Effect>, more: seq<Effect>)
    requires OneAtATime(es) && !Open(es) && forall i :: 0 <= i < |more| ==> more[i] == Stashed
    ensures OneAtATime(es + more) && !Open(es + more)
  {
    if more == [] {
      assert es + more == es;
    } else {
      var n := |more| - 1;
      StashingStaysSerial(es, more[..n]);
      Append(es + more[..n], Stashed);
      assert es + more == es + more[..n] + [Stashed];
    }
  }

  lemma GrowsChain(l: Ledger, m: Ledger, n: Ledger)
    requires Grows(l, m) && Grows(m, n)
    ensures Grows(l, n)
  {
  }

  lemma StashUpToGrows(s: Loop, gs: seq<Group>, g: nat, d: nat, t: Tick, now: int)
    requires s.stash.Valid() && g < |gs| && d <= |GroupDrops(s, gs, g, t, now)| && !s.stopped
    ensures Grows(s.ledger, StashUpTo(s, gs, g, d, t, now).ledger)
  {
    hide StashGroup, StashGroups, Grows;
    var before := StashGroups(s, gs[..g], t, now);
    StashGroupsOrderly(s, gs[..g], t, now);
    UpToGrows(before, gs[g], t, now, GroupDrops(s, gs, g, t, now)[..d]);
    GrowsChain(s.ledger, before.ledger, StashUpTo(s, gs, g, d, t, now).ledger);
  }

  lemma OnlyStashedSerial(s: Loop, r: Loop)
    requires OnlyStashed(s, r) && Serial(s) && !s.inFlight
    ensures OneAtATime(r.effects) && !Open(r.effects)
  {
    var more := r.effects[|s.effects|..];
    assert r.effects == s.effects + more;
    StashingStaysSerial(s.effects, more);
  }

  lemma StashUpToOrderly(s: Loop, gs: seq<Group>, g: nat, d: nat, t: Tick, now: int)
    requires Tidy(s.stash) && Filled(gs) && g < |gs| && d <= |GroupDrops(s, gs, g, t, now)| && !s.stopped && !s.inFlight
    ensures
      var r := StashUpTo(s, gs, g, d, t, now);
      Grows(s.ledger, r.ledger) && (Serial(s) ==> OneAtATime(r.effects) && !Open(r.effects))
  {
    hide StashUpTo, GroupDrops;
    StashUpToShape(s, gs, g, d, t, now);
    StashUpToGrows(s, gs, g, d, t, now);
    if Serial(s) { OnlyStashedSerial(s, StashUpTo(s, gs, g, d, t, now)); }
  }

  lemma DroppingOrderly(s: Loop, a: Action, g: nat, d: nat)
    requires Shape(s) && CanDrop(s, a, g, d)
    ensures Orderly(s, ThrownDropping(s, a, g, d))
  {
    hide StashGroup, StashGroups, StashUpTo, GroupDrops, Abandon;
    var q, t := FinalPlan(s, a), s.phase.tick;
    FinalPlanFilled(s, a);
    StashUpToOrderly(s, q.deferred, g, d, t, a.now);
    AbandonOrderly(s, StashUpTo(s, q.deferred, g, d, t, a.now),
                   DroppedKeys(GroupDrops(s, q.deferred, g, t, a.now)[d..]) + GroupKeys(q.deferred[g + 1..]) + multiset(KeysOf(q.floored)));
  }

  lemma UpToGrows(s: Loop, g: Group, t: Tick, now: int, drops: seq<Drop>)
    requires s.stash.Valid()
    ensures
      var l := StashGroup(s, g, t, now).ledger;
      Grows(s.ledger, l.(dead := s.ledger.dead + DroppedKeys(drops)))
  {
  }

  lemma ThrownOrderly(s: Loop, a: Action, site: Site)
    requires Shape(s) && CanThrow(s, a, site)
    ensures Orderly(s, Thrown(s, a, site))
  {
    match site
    case Reporting => ReportingOrderly(s, a);
    case Recorded =>
      var t := HeldBackEnded(s, s.phase.late, false);
      HeldBackEndOrderly(s, s.phase.late, false);
      EndTickOrderly(t);
      OrderlyChain(s, t, EndTick(t));
    case Announcing =>
      ActOrderly(s, a);
      AnnouncingOrderly(s, Act(s, a));
    case Dropping(g, d) => DroppingOrderly(s, a, g, d);
  }

  lemma NextOrderly(s: Loop, a: Action)
    requires Shape(s) && Enabled(s, a)
    ensures Orderly(s, Next(s, a))
  {
    if a.TickThrows? { ThrownOrderly(s, a.during, a.site); } else { ActOrderly(s, a); }
  }

  // ---------------------------------------------------------------------
  // Over whole runs
  // ---------------------------------------------------------------------

  /** In every run, at every point: turns have run strictly one at a time, one is in flight exactly when
      the guard says so, and the current tick has started at most one deferred turn. */
  lemma {:induction false} OneTurnAtATime(ss: seq<Loop>, acts: seq<Action>, i: nat)
    requires IsRun(ss, acts) && i <= |acts|
    ensures OneAtATime(ss[i].effects) && (Open(ss[i].effects) <==> ss[i].inFlight)
    ensures ss[i].deferredStarts <= 1
  {
    hide Next, Enabled;
    RunShape(ss, acts, i);
    if i > 0 {
      OneTurnAtATime(ss, acts, i - 1);
      RunShape(ss, acts, i - 1);
      RunStep(ss, acts, i - 1);
      NextOrderly(ss[i - 1], acts[i - 1]);
    }
  }

  /** A disposition is final: a started, dead-lettered or failed message stays that. */
  lemma {:induction false} DispositionsAreFinal(ss: seq<Loop>, acts: seq<Action>, i: nat, j: nat)
    requires IsRun(ss, acts) && i <= j <= |acts|
    ensures Grows(ss[i].ledger, ss[j].ledger)
  {
    hide Next, Enabled, Shape;
    if i < j {
      DispositionsAreFinal(ss, acts, i, j - 1);
      RunShape(ss, acts, j - 1);
      RunStep(ss, acts, j - 1);
      NextOrderly(ss[j - 1], acts[j - 1]);
    }
  }

  /** Once `stop()` has run, whatever happens next acks nothing, stashes nothing and spawns no turn. */
  lemma {:induction false} StoppedLoopStartsNothing(ss: seq<Loop>, acts: seq<Action>, i: nat, j: nat)
    requires IsRun(ss, acts) && i <= j <= |acts| && ss[i].stopped
    ensures ss[j].stopped && HarmlessSince(ss[i].effects, ss[j].effects)
  {
    hide Next, Enabled, Shape;
    if i < j {
      StoppedLoopStartsNothing(ss, acts, i, j - 1);
      RunShape(ss, acts, j - 1);
      RunStep(ss, acts, j - 1);
      NextOrderly(ss[j - 1], acts[j - 1]);
    }
  }

  /** A stopped loop holds nothing, except the stashes of a covering turn whose spawn is undecided. */
  lemma StoppedLoopHoldsNothing(ss: seq<Loop>, acts: seq<Action>, i: nat)
    requires IsRun(ss, acts) && i <= |acts| && ss[i].stopped
    ensures ss[i].unhanded == []
    ensures forall c :: c in ss[i].stash.at ==> ss[i].phase.CoverTurn? && c in ss[i].phase.covered
  {
    RunShape(ss, acts, i);
  }

  // ---------------------------------------------------------------------
  // Covered stashes
  // ---------------------------------------------------------------------

  lemma NoThrowInSpawn(s: Loop, a: Action, site: Site)
    requires Shape(s) && s.phase.CoverTurn? && CanThrow(s, a, site)
    ensures a.SpawnDecided?
  {
  }

  /** Until a covering turn's spawn is decided, nothing takes a stash it covers: not a stop, not anything else. */
  lemma UndecidedStashStays(s: Loop, a: Action, c: string)
    requires Shape(s) && s.phase.CoverTurn? && c in s.phase.covered && c in s.stash.at && Enabled(s, a)
    requires !a.SpawnDecided? && !(a.TickThrows? && a.during.SpawnDecided?)
    ensures Next(s, a).phase == s.phase && c in Next(s, a).stash.at && Next(s, a).stash.at[c] == s.stash.at[c]
  {
    assert a == Stop by {
      if a.TickThrows? { NoThrowInSpawn(s, a.during, a.site); }
    }
    assert c !in Uncovered(s.stash.keys, s.covering);
  }

  /** A covering turn clears the stashes it covered if it started. If it did not, they all stay, unless the loop
      has been stopped, which puts them on record. */
  lemma OnlyStartedTurnClears(s: Loop, c: string)
    requires Shape(s) && s.phase.CoverTurn? && c in s.phase.covered && c in s.stash.at
    ensures c !in CoverStarted(s).stash.at
    ensures c in CoverFailed(s).stash.at <==> !s.stopped
    ensures !s.stopped ==> CoverFailed(s).stash == s.stash
  {
    if s.stopped {
      assert c in s.stash.keys && c in Uncovered(s.stash.keys, []);
    }
  }

  // ---------------------------------------------------------------------
  // Floors after a stop
  // ---------------------------------------------------------------------

  predicate MorePeers(p: Plan) {
    exists i :: 0 < i < |p.waiting| && HasPeer(p.waiting[i])
  }

  predicate AsksAnotherFloor(s: Loop, a: Action) {
    || (a.FloorAnswers? && s.phase.Planning? && MorePeers(s.phase.plan))
    || (a.FloorAnswers? && s.phase.RetryAsk? && s.phase.rest != [] && a.answer.Failed?)
    || (a.ReleaseReturns? && s.phase.RetryRelease? && s.phase.more && s.phase.rest != [])
  }

  lemma {:induction false} SkipFinds(p: Plan)
    ensures SkipOperatorOnly(p).waiting != [] <==> exists i :: 0 <= i < |p.waiting| && HasPeer(p.waiting[i])
    decreases |p.waiting|
  {
    if p.waiting != [] && !HasPeer(p.waiting[0]) {
      var q := p.(waiting := p.waiting[1..], floored := p.floored + p.waiting[0].messages);
      SkipFinds(q);
      assert forall i :: 0 < i < |p.waiting| ==> p.waiting[i] == q.waiting[i - 1];
      assert forall i :: 0 <= i < |q.waiting| ==> q.waiting[i] == p.waiting[i + 1];
    }
  }

  /** The step from `s` to `r` asked for a floor. */
  predicate FloorRequested(s: Loop, r: Loop) {
    |r.effects| > |s.effects| && r.effects[|r.effects| - 1] == FloorAsked
  }

  lemma StoppedPlanStep(s: Loop, a: Action)
    requires Shape(s) && s.stopped && s.phase.Planning? && a.FloorAnswers? && Enabled(s, a)
    ensures FloorRequested(s, Next(s, a)) <==> AsksAnotherFloor(s, a)
  {
    var w, p := s.phase.plan.waiting, Answered(s.phase.plan, a.answer);
    SkipFinds(p);
    assert forall i :: 0 < i < |w| ==> w[i] == p.waiting[i - 1];
    assert forall i :: 0 <= i < |p.waiting| ==> p.waiting[i] == w[i + 1];
  }

  lemma SomeMember(cs: seq<string>)
    ensures cs == [] || exists c :: c in cs
  {
    if cs != [] { assert cs[0] in cs; }
  }

  lemma StoppedSpawnStep(s: Loop, started: bool, now: int)
    requires Shape(s) && s.stopped && Spawning(s.phase)
    ensures !FloorRequested(s, SpawnStep(s, started, now))
  {
    if s.phase.OverrunTurn? {
      var order := RetryOrder(s.stash, s.phase.at);
      SomeMember(order);
    }
  }

  lemma ThrownAsksNothing(s: Loop, a: Action, site: Site)
    requires Shape(s) && s.stopped && CanThrow(s, a, site)
    ensures !FloorRequested(s, Thrown(s, a, site))
  {
    hide Act, StashUpTo, GroupDrops;
    if site.Announcing? {
      ActOrderly(s, a);
      AnnouncingOrderly(s, Act(s, a));
    }
  }

  /** The one kind of work a stopped loop can still begin: a floor request. It does so exactly when a
      request it was waiting on is answered with more peer conversations to ask for, or when a retry's
      request failed (or found its stash gone) with more conversations to retry. */
  lemma StoppedFloorRequests(s: Loop, a: Action)
    requires Shape(s) && s.stopped && Enabled(s, a)
    ensures FloorRequested(s, Next(s, a)) <==> AsksAnotherFloor(s, a)
  {
    match a
    case FloorAnswers(answer, now) => if s.phase.Planning? { StoppedPlanStep(s, a); }
    case SpawnDecided(started, now) => StoppedSpawnStep(s, started, now);
    case TickThrows(during, site) => ThrownAsksNothing(s, during, site);
    case _ =>
  }

  /** Two conversations with one peer message each, planned in order of appearance. */
  lemma TwoGroups(a: Message, b: Message)
    requires a.conversation != b.conversation
    ensures GroupsOf([a, b]) == [Group(a.conversation, [a]), Group(b.conversation, [b])]
  {
    assert [a, b][..1] == [a] && [a][..0] == [];
    assert GroupsOf([a]) == [Group(a.conversation, [a])];
  }

  function PairBatch(a: Message, b: Message): Batch {
    Batch([a, b], [None, None], "g", map[], true, [a, b], 0)
  }

  /** A tick that keeps one peer message in each of two conversations comes to ask for the first floor. */
  lemma PairIsPlanned(s: Loop, t: Tick, a: Message, b: Message)
    requires s.stash.Valid() && !s.stopped && s.phase == Acking(t) && t.kept == [a, b]
    requires a.kind == Peer && b.kind == Peer && a.conversation != b.conversation
    ensures
      var p := Plan([Group(a.conversation, [a]), Group(b.conversation, [b])], [], [], []);
      AckStep(s, 0) == s.(phase := Planning(t, p), effects := s.effects + [FloorAsked])
  {
    TwoGroups(a, b);
    assert a in [a] && b in [b];
  }

  lemma PairIsAcked(a: Message, b: Message)
    ensures
      var s := Next(Start("g").(phase := Polling), PollReturns(PairBatch(a, b), 0));
      && s.stash == EmptyMap() && !s.stopped && s.phase == Acking(TickOf(PairBatch(a, b)))
      && s.unhanded == [a, b] && s.ledger == EMPTY_LEDGER.(admitted := multiset{KeyOf(a), KeyOf(b)})
  {
    hide Thrown, CanThrow;
    assert KeysOf([a, b]) == [KeyOf(a), KeyOf(b)];
    assert multiset{} + multiset(KeysOf([a, b])) == multiset{KeyOf(a), KeyOf(b)};
  }

  lemma StopWhilePlanning(s: Loop)
    requires Shape(s) && !s.stopped && s.phase.Planning? && MorePeers(s.phase.plan)
    ensures
      var r := Next(s, Stop);
      Enabled(s, Stop) && r.stopped && Enabled(r, FloorAnswers(Failed, 0)) && FloorRequested(r, Next(r, FloorAnswers(Failed, 0)))
  {
    NextShape(s, Stop);
    StoppedFloorRequests(Next(s, Stop), FloorAnswers(Failed, 0));
  }

  lemma Extend(ss: seq<Loop>, acts: seq<Action>, a: Action, r: Loop) returns (ss': seq<Loop>, acts': seq<Action>)
    requires IsRun(ss, acts) && Enabled(ss[|acts|], a) && Next(ss[|acts|], a) == r
    ensures IsRun(ss', acts') && |acts'| == |acts| + 1 && ss' == ss + [r]
  {
    hide Act, Thrown, Ready, CanThrow;
    ss', acts' := ss + [r], acts + [a];
    forall i | 0 <= i < |acts'| ensures Enabled(ss'[i], acts'[i]) && ss'[i + 1] == Next(ss'[i], acts'[i]) {
      if i < |acts| {
        assert ss'[i] == ss[i] && acts'[i] == acts[i] && ss'[i + 1] == ss[i + 1];
      } else {
        assert ss'[i] == ss[|acts|] && acts'[i] == a && ss'[i + 1] == r;
      }
    }
  }

  ghost predicate Reachable(s: Loop) {
    exists ss, acts: seq<Action> :: IsRun(ss, acts) && ss[|acts|] == s
  }

  lemma ReachableNext(s: Loop, a: Action, r: Loop)
    requires Reachable(s) && Enabled(s, a) && Next(s, a) == r
    ensures Reachable(r)
  {
    var ss, acts: seq<Action> :| IsRun(ss, acts) && ss[|acts|] == s;
    var ss', acts' := Extend(ss, acts, a, r);
    assert ss'[|acts'|] == r;
  }

  lemma PairReachesAck(a: Message, b: Message)
    ensures
      var s := Next(Start("g").(phase := Polling), PollReturns(PairBatch(a, b), 0));
      Reachable(s)
  {
    var s0 := Start("g");
    var none: seq<Action> := [];
    assert IsRun([s0], none) && [s0][|none|] == s0;
    ReachableNext(s0, TickFires, s0.(phase := Polling));
    var s1 := s0.(phase := Polling);
    ReachableNext(s1, PollReturns(PairBatch(a, b), 0), Next(s1, PollReturns(PairBatch(a, b), 0)));
  }

  lemma PairReachesPlan(s: Loop, t: Tick, a: Message, b: Message)
    requires Reachable(s) && s.stash.Valid() && !s.stopped && s.phase == Acking(t) && t.kept == [a, b]
    requires a.kind == Peer && b.kind == Peer && a.conversation != b.conversation
    ensures exists r :: Reachable(r) && !r.stopped && r.phase.Planning? && MorePeers(r.phase.plan)
  {
    PairIsPlanned(s, t, a, b);
    var r := AckStep(s, 0);
    ReachableNext(s, AckReturns(0), r);
    assert b in r.phase.plan.waiting[1].messages;
    assert MorePeers(r.phase.plan);
  }

  /** It does happen: any two peer messages in two conversations lead to a state in which a stop is
      followed by a request for the second floor. */
  lemma StoppedLoopCanAskForFloor(a: Message, b: Message)
    requires a.kind == Peer && b.kind == Peer && a.conversation != b.conversation
    ensures exists s :: Reachable(s) && !s.stopped && s.phase.Planning? && MorePeers(s.phase.plan)
  {
    PairReachesAck(a, b);
    PairIsAcked(a, b);
    PairReachesPlan(Next(Start("g").(phase := Polling), PollReturns(PairBatch(a, b), 0)), TickOf(PairBatch(a, b)), a, b);
  }
}
