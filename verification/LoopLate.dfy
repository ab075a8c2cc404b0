/** Bounded late delivery in the asynchronous loop itself, over the runs of its step machine: a stash past the retry
    TTL is in a started turn or on record once the loop has come to service the stash CONVERSATION_CAP times. */
module LoopLate {
  import opened OrderedMaps
  import opened Messages
  import opened Stashing
  import opened Covering
  import opened ReplyLoop
  import opened LoopShape
  import opened LoopStop
  import opened LoopLedger
  import Late = LateDelivery

  // ---------------------------------------------------------------------
  // Following one message
  // ---------------------------------------------------------------------

  /** How often `k` has been in a started turn or gone on record. */
  ghost function Settlements(l: Ledger, k: HeldKey): nat {
    l.started[k] + l.dead[k]
  }

  /** A held-back message: its identity, its conversation, when that was first deferred, and how often the identity
      had been settled when this one began to be followed. */
  datatype Letter = Letter(key: HeldKey, conversation: string, since: int, before: nat)

  ghost predicate Out(s: Loop, x: Letter) {
    Settlements(s.ledger, x.key) > x.before
  }

  ghost predicate Waiting(d: Stashes, x: Letter, bound: int) {
    Late.Holding(d, x.conversation, x.key, x.since) && |Late.Ahead(d, x.conversation, x.since)| <= bound
  }

  /** Held back with at most `bound` stashes that may be served first, unless it is out. */
  ghost predicate Queued(s: Loop, x: Letter, bound: int) {
    && Settlements(s.ledger, x.key) >= x.before
    && (Out(s, x) || Waiting(s.stash, x, bound))
  }

  /** In the held-back turn now being spawned. */
  ghost predicate Riding(s: Loop, x: Letter) {
    (s.phase.OverrunTurn? || s.phase.RetryTurn?) && x.key in EntryKeys(s.phase.late.entries)
  }

  ghost predicate Tracked(s: Loop, x: Letter, bound: int) {
    Queued(s, x, bound) || (Settlements(s.ledger, x.key) >= x.before && Riding(s, x))
  }

  lemma StaysOut(s: Loop, r: Loop, x: Letter)
    requires Grows(s.ledger, r.ledger) && Out(s, x)
    ensures Out(r, x)
  {
  }

  lemma SameQueue(s: Loop, r: Loop, x: Letter, bound: int)
    requires Queued(s, x, bound) && r.stash == s.stash && Grows(s.ledger, r.ledger)
    ensures Queued(r, x, bound)
  {
    if Out(s, x) { StaysOut(s, r, x); }
  }

  // ---------------------------------------------------------------------
  // The pieces of a step
  // ---------------------------------------------------------------------

  lemma FewerAhead(d: Stashes, r: Stashes, x: Letter, bound: int)
    requires Waiting(d, x, bound) && Late.Ahead(r, x.conversation, x.since) <= Late.Ahead(d, x.conversation, x.since)
    requires Late.Holding(r, x.conversation, x.key, x.since)
    ensures Waiting(r, x, bound)
  {
    Late.SubsetSize(Late.Ahead(r, x.conversation, x.since), Late.Ahead(d, x.conversation, x.since));
  }

  /** Clearing other conversations' stashes only moves it up. */
  lemma ClearQueue(d: Stashes, cs: seq<string>, x: Letter, bound: int)
    requires d.Valid() && x.conversation !in cs && Waiting(d, x, bound)
    ensures Waiting(ClearAll(d, cs), x, bound)
  {
    FewerAhead(d, ClearAll(d, cs), x, bound);
  }

  lemma FlushQueue(s: Loop, x: Letter, bound: int)
    requires s.stash.Valid() && Queued(s, x, bound)
    ensures Queued(FlushOnStop(s), x, bound)
  {
    var r, flushed := FlushOnStop(s), Uncovered(s.stash.keys, s.covering);
    if !Out(s, x) {
      if x.conversation in flushed {
        Late.HeldEntriesHas(s.stash.at, flushed, x.conversation, x.key);
        assert x.key in multiset(EntryKeys(HeldEntries(s.stash.at, flushed)));
      } else {
        ClearQueue(s.stash, flushed, x, bound);
      }
    }
  }

  lemma EndQueue(s: Loop, x: Letter, bound: int)
    requires s.stash.Valid() && Queued(s, x, bound)
    ensures Queued(EndTick(s), x, bound)
  {
    var t := s.(phase := Idle, unhanded := [], covering := []);
    SameQueue(s, t, x, bound);
    if s.stopped { FlushQueue(t, x, bound); }
  }

  lemma WalkQueue(s: Loop, cs: seq<string>, now: int, x: Letter, bound: int)
    requires s.stash.Valid() && Queued(s, x, bound)
    ensures Queued(WalkRetries(s, cs, now), x, bound)
  {
    EndQueue(s, x, bound);
  }

  /** Taking a stash out takes this message along, or one that was ahead of it, or moves nothing. */
  lemma SpawnQueue(s: Loop, c: string, next: Stash -> Phase, x: Letter, bound: int)
    requires s.stash.Valid() && c in s.stash.at && Queued(s, x, bound)
    requires var p := next(s.stash.at[c]); (p.OverrunTurn? || p.RetryTurn?) && p.late == s.stash.at[c]
    ensures Tracked(SpawnHeldBack(s, c, next), x, bound)
    ensures c in Late.Ahead(s.stash, x.conversation, x.since) ==> Tracked(SpawnHeldBack(s, c, next), x, bound - 1)
    ensures c == x.conversation ==> Tracked(SpawnHeldBack(s, c, next), x, bound - 1)
  {
    var r := SpawnHeldBack(s, c, next);
    if !Out(s, x) && c != x.conversation {
      FewerAhead(s.stash, r.stash, x, bound);
      if c in Late.Ahead(s.stash, x.conversation, x.since) {
        Late.Smaller(Late.Ahead(r.stash, x.conversation, x.since), Late.Ahead(s.stash, x.conversation, x.since), c);
      }
    }
  }

  /** Servicing the stash once this one's retry window has passed serves it, or one ahead of it. */
  lemma ServiceQueue(s: Loop, now: int, x: Letter, bound: int)
    requires s.stash.Valid() && !s.inFlight && Queued(s, x, bound) && now - x.since > RETRY_TTL_MS
    ensures Tracked(ServiceDeferred(s, now), x, bound - 1)
  {
    if Out(s, x) {
      ServiceLedger(s, now);
    } else {
      OldestGoesFirst(s.stash, now, x.conversation);
      var c := ExpiredOrder(s.stash, now)[0];
      assert c in ExpiredOrder(s.stash, now);
      SpawnQueue(s, c, late => OverrunTurn(late, now), x, bound);
    }
  }

  lemma ServiceLedger(s: Loop, now: int)
    requires s.stash.Valid()
    ensures Grows(s.ledger, ServiceDeferred(s, now).ledger)
  {
    if ExpiredOrder(s.stash, now) != [] { assert ExpiredOrder(s.stash, now)[0] in ExpiredOrder(s.stash, now); }
  }

  lemma {:induction false} RecordedCounts(drops: seq<Drop>, k: HeldKey)
    requires Late.OnRecord(drops, k)
    ensures DroppedKeys(drops)[k] > 0
  {
    var n := |drops| - 1;
    if k in KeysOf(drops[n].messages) {
      assert k in multiset(KeysOf(drops[n].messages));
    } else {
      var i :| 0 <= i < |drops| && k in KeysOf(drops[i].messages);
      assert drops[..n][i] == drops[i];
      RecordedCounts(drops[..n], k);
    }
  }

  lemma StashKeepsQueue(d: Stashes, c: string, msgs: seq<Message>, vs: Verdicts, now: int, gen: Option<Generation>, x: Letter, bound: int)
    requires Tidy(d) && msgs != [] && x.since < now && Waiting(d, x, bound)
    ensures Waiting(StashAfter(d, c, msgs, vs, now, gen), x, bound) || DroppedKeys(StashDrops(d, c, msgs, vs, now, gen))[x.key] > 0
  {
    hide StashAfter, StashDrops, DroppedKeys, TidyStash;
    var r, drops := StashAfter(d, c, msgs, vs, now, gen), StashDrops(d, c, msgs, vs, now, gen);
    StashKeepsNewest(d, c, msgs, vs, now, gen);
    Late.DeferAhead(d, r, c, Merged(d, c, msgs), now, x.conversation, x.since);
    Late.HeldOrRecorded(d, c, msgs, vs, now, gen, x.conversation, x.key, x.since);
    if Late.OnRecord(drops, x.key) { RecordedCounts(drops, x.key); } else { FewerAhead(d, r, x, bound); }
  }

  lemma StashGroupQueue(s: Loop, g: Group, t: Tick, now: int, x: Letter, bound: int)
    requires Tidy(s.stash) && g.messages != [] && x.since < now && Queued(s, x, bound)
    ensures Queued(StashGroup(s, g, t, now), x, bound)
  {
    hide Waiting, TidyStash, DroppedKeys;
    if !Out(s, x) { StashKeepsQueue(s.stash, g.conversation, g.messages, t.verdicts, now, Some(s.generation), x, bound); }
  }

  lemma {:induction false} StashGroupsQueue(s: Loop, gs: seq<Group>, t: Tick, now: int, x: Letter, bound: int)
    requires Tidy(s.stash) && Filled(gs) && x.since < now && Queued(s, x, bound)
    ensures Queued(StashGroups(s, gs, t, now), x, bound)
  {
    hide StashGroup, StashGroups, Queued, TidyStash, OnlyStashed;
    if gs == [] {
      NoGroups(s, t, now);
    } else {
      var n := |gs| - 1;
      assert gs[n] in gs;
      StashGroupsShape(s, gs[..n], t, now);
      StashGroupsQueue(s, gs[..n], t, now, x, bound);
      StashGroupQueue(StashGroups(s, gs[..n], t, now), gs[n], t, now, x, bound);
      StashGroupsSnoc(s, gs, t, now);
    }
  }

  lemma NoGroups(s: Loop, t: Tick, now: int)
    requires s.stash.Valid()
    ensures StashGroups(s, [], t, now) == s
  {
  }

  // ---------------------------------------------------------------------
  // A step
  // ---------------------------------------------------------------------

  /** The clock read by a step. */
  function TimeOf(a: Action): Option<int> {
    match a
    case PollReturns(_, now) => Some(now)
    case AckReturns(now) => Some(now)
    case FloorAnswers(_, now) => Some(now)
    case SpawnDecided(_, now) => Some(now)
    case ReleaseReturns(now) => Some(now)
    case _ => None
  }

  predicate Past(a: Action, x: Letter) {
    TimeOf(a).Some? ==> TimeOf(a).value - x.since > RETRY_TTL_MS
  }

  /** The step at which a tick of a loop not stopped comes to service the stash. */
  ghost predicate Services(s: Loop, a: Action) {
    && !s.stopped
    && match a
       case PollReturns(b, _) => s.phase.Polling? && !b.anyReal && b.messages == []
       case AckReturns(_) => s.phase.QuietAck? || (s.phase.Acking? && s.phase.tick.kept == [])
       case FloorAnswers(_, _) =>
         s.phase.Planning? && s.phase.plan.waiting != [] && FinalPlan(s, a).waiting == [] && FinalPlan(s, a).floored == []
       case SpawnDecided(_, _) => s.phase.CoverTurn? && s.phase.floors == []
       case ReleaseReturns(_) => s.phase.Releasing? && s.phase.others == []
       case _ => false
  }

  /** What a step does to the queue: it serves if it services, and otherwise moves nothing back. */
  ghost predicate Advances(s: Loop, a: Action, r: Loop, x: Letter, bound: int) {
    Tracked(r, x, if Services(s, a) then bound - 1 else bound)
  }

  lemma FinishQueue(s: Loop, t: Tick, p: Plan, now: int, x: Letter, bound: int)
    requires Shape(s) && (s.phase.Acking? || s.phase.Planning?) && FilledPlan(p)
    requires Queued(s, x, bound) && now - x.since > RETRY_TTL_MS
    ensures Tracked(FinishPlan(s, t, p, now), x, if !s.stopped && p.floored == [] then bound - 1 else bound)
  {
    hide TidyStash, StashGroups, ServiceDeferred, SpawnHeldBack;
    if s.stopped {
      if p.toRelease == [] { EndQueue(s, x, bound); }
    } else {
      var m := StashGroups(s, p.deferred, t, now);
      var stashed := m.(unhanded := []);
      StashGroupsShape(s, p.deferred, t, now);
      StashGroupsQueue(s, p.deferred, t, now, x, bound);
      SameQueue(m, stashed, x, bound);
      if p.floored == [] { ServiceQueue(stashed, now, x, bound); }
    }
  }

  lemma PlanQueue(s: Loop, a: Action, x: Letter, bound: int)
    requires Shape(s) && s.phase.Planning? && s.phase.plan.waiting != [] && a.FloorAnswers? && Past(a, x) && Queued(s, x, bound)
    ensures Advances(s, a, ContinuePlan(s, s.phase.tick, Answered(s.phase.plan, a.answer), a.now), x, bound)
  {
    hide FinishPlan, Shape;
    FinalPlanFilled(s, a);
    var q := FinalPlan(s, a);
    if q.waiting == [] { FinishQueue(s, s.phase.tick, q, a.now, x, bound); }
  }

  lemma AckQueue(s: Loop, a: Action, x: Letter, bound: int)
    requires Shape(s) && (s.phase.QuietAck? || s.phase.Acking?) && a.AckReturns? && Past(a, x) && Queued(s, x, bound)
    ensures Advances(s, a, AckStep(s, a.now), x, bound)
  {
    hide FinishPlan, ServiceDeferred;
    if s.stopped {
      EndQueue(s, x, bound);
    } else if s.phase.QuietAck? || s.phase.tick.kept == [] {
      ServiceQueue(s, a.now, x, bound);
    } else {
      var p := Plan(GroupsOf(s.phase.tick.kept), [], [], []);
      GroupsFilled(s.phase.tick.kept);
      SkipFilled(p);
      var q := SkipOperatorOnly(p);
      if q.waiting == [] {
        FinishQueue(s, s.phase.tick, q, a.now, x, bound);
        Looser(FinishPlan(s, s.phase.tick, q, a.now), x, bound);
      }
    }
  }

  lemma Looser(s: Loop, x: Letter, bound: int)
    ensures Tracked(s, x, bound - 1) ==> Tracked(s, x, bound)
  {
  }

  lemma PollQueue(s: Loop, a: Action, x: Letter, bound: int)
    requires Shape(s) && s.phase.Polling? && a.PollReturns? && ValidBatch(a.batch) && Past(a, x) && Queued(s, x, bound)
    ensures Advances(s, a, PollStep(s, a.batch, a.now), x, bound)
  {
    hide ServiceDeferred, EndTick, TickOf;
    if s.stopped {
      EndQueue(s, x, bound);
    } else {
      var t := s.(generation := a.batch.generation);
      SameQueue(s, t, x, bound);
      if !a.batch.anyReal && a.batch.messages == [] { ServiceQueue(t, a.now, x, bound); }
    }
  }

  /** A covering turn that started took along the stashes it covered; otherwise they stay or go on record. */
  lemma CoverQueue(s: Loop, started: bool, x: Letter, bound: int)
    requires Shape(s) && Books(s) && s.phase.CoverTurn? && Queued(s, x, bound)
    ensures Queued(if started then CoverStarted(s) else CoverFailed(s), x, bound)
  {
    if started {
      CoverStartedQueue(s, x, bound);
    } else {
      SameQueue(s, CoverLost(s), x, bound);
      FlushQueue(CoverLost(s), x, bound);
    }
  }

  lemma CarriedHas(d: Stashes, floored: seq<Message>, cargo: Cargo, covered: seq<string>, c: string, k: HeldKey)
    requires CoverLoaded(d, floored, cargo, covered) && c in covered && k in EntryKeys(d.at[c].entries)
    ensures multiset(KeysOf(cargo.messages))[k] > 0
  {
    Late.HeldEntriesHas(d.at, covered, c, k);
    assert k in multiset(EntryKeys(HeldEntries(d.at, covered)));
  }

  lemma CoverStartedQueue(s: Loop, x: Letter, bound: int)
    requires Shape(s) && Books(s) && s.phase.CoverTurn? && Queued(s, x, bound)
    ensures Queued(CoverStarted(s), x, bound)
  {
    hide CoverLoaded, Booked, TidyStash;
    if !Out(s, x) {
      if x.conversation in s.phase.covered {
        CarriedHas(s.stash, s.phase.floored, s.phase.cargo, s.phase.covered, x.conversation, x.key);
      } else {
        ClearQueue(s.stash, s.phase.covered, x, bound);
      }
    }
  }

  lemma AfterCoverQueue(s: Loop, floors: seq<string>, now: int, x: Letter, bound: int)
    requires s.stash.Valid() && !s.inFlight && Queued(s, x, bound) && now - x.since > RETRY_TTL_MS
    ensures Tracked(AfterCoverTurn(s, floors, now), x, if floors == [] && !s.stopped then bound - 1 else bound)
  {
    hide ServiceDeferred, EndTick;
    if floors == [] {
      if s.stopped { EndQueue(s, x, bound); } else { ServiceQueue(s, now, x, bound); }
    }
  }

  lemma HeldBackSettles(s: Loop, late: Stash, started: bool, x: Letter)
    requires x.key in EntryKeys(late.entries) && Settlements(s.ledger, x.key) >= x.before
    ensures Out(HeldBackEnded(s, late, started), x)
  {
    assert x.key in multiset(EntryKeys(late.entries));
  }

  lemma HeldBackQueue(s: Loop, late: Stash, started: bool, x: Letter, bound: int)
    requires Queued(s, x, bound) || (Settlements(s.ledger, x.key) >= x.before && x.key in EntryKeys(late.entries))
    ensures Queued(HeldBackEnded(s, late, started), x, bound)
  {
    if x.key in EntryKeys(late.entries) {
      HeldBackSettles(s, late, started, x);
    } else {
      SameQueue(s, HeldBackEnded(s, late, started), x, bound);
    }
  }

  lemma SpawnStepQueue(s: Loop, a: Action, x: Letter, bound: int)
    requires Shape(s) && Books(s) && Spawning(s.phase) && a.SpawnDecided? && Past(a, x)
    requires Tracked(s, x, bound)
    ensures Advances(s, a, SpawnStep(s, a.started, a.now), x, bound)
  {
    hide WalkRetries, EndTick, AfterCoverTurn, CoverStarted, CoverFailed, Queued, Books, TidyStash;
    match s.phase
    case CoverTurn(floors, _, _, _) =>
      CoverEndShape(s, a.started);
      CoverQueue(s, a.started, x, bound);
      CoverKeepsStopped(s, a.started);
      AfterCoverQueue(if a.started then CoverStarted(s) else CoverFailed(s), floors, a.now, x, bound);
    case OverrunTurn(late, at) =>
      var t := HeldBackEnded(s, late, a.started);
      HeldBackQueue(s, late, a.started, x, bound);
      if a.started { EndQueue(t, x, bound); } else { WalkQueue(t, RetryOrder(t.stash, at), at, x, bound); }
    case RetryTurn(c, late) =>
      var t := HeldBackEnded(s, late, a.started);
      HeldBackQueue(s, late, a.started, x, bound);
      SameQueue(t, t.(phase := RetryRelease(c, [], false, 0)), x, bound);
  }

  lemma CoverKeepsStopped(s: Loop, started: bool)
    requires s.stash.Valid() && s.phase.CoverTurn?
    ensures (if started then CoverStarted(s) else CoverFailed(s)).stopped == s.stopped
  {
  }

  lemma RetryQueue(s: Loop, answer: FloorAnswer, x: Letter, bound: int)
    requires Shape(s) && s.phase.RetryAsk? && Queued(s, x, bound)
    ensures Tracked(RetryStep(s, answer), x, bound)
  {
    hide WalkRetries, EndTick, Queued, TidyStash;
    var c, rest, at := s.phase.conversation, s.phase.rest, s.phase.at;
    WalkQueue(s, rest, at, x, bound);
    EndQueue(s, x, bound);
    if c in s.stash.at { SpawnQueue(s, c, late => RetryTurn(c, late), x, bound); }
    SameQueue(s, s.(phase := RetryRelease(c, [], false, at)), x, bound);
    SameQueue(s, s.(phase := RetryRelease(c, rest, true, at)), x, bound);
  }

  lemma ReleaseQueue(s: Loop, a: Action, x: Letter, bound: int)
    requires Shape(s) && (s.phase.HandingBack? || s.phase.Releasing? || s.phase.RetryRelease?) && a.ReleaseReturns?
    requires Past(a, x) && Queued(s, x, bound)
    ensures Advances(s, a, ReleaseStep(s, a.now), x, bound)
  {
    hide WalkRetries, EndTick, AfterCoverTurn, Queued, TidyStash;
    EndQueue(s, x, bound);
    match s.phase
    case HandingBack(_, others) => if others != [] { SameQueue(s, s.(phase := HandingBack(others[0], others[1..])), x, bound); }
    case Releasing(_, others) => AfterCoverQueue(s, others, a.now, x, bound);
    case RetryRelease(_, rest, more, at) => WalkQueue(s, rest, at, x, bound);
  }

  lemma OtherQueue(s: Loop, a: Action, x: Letter, bound: int)
    requires Shape(s) && Ready(s, a) && (a.TickFires? || a.PollFails? || a.NoticeReturns?) && Queued(s, x, bound)
    ensures Advances(s, a, Act(s, a), x, bound)
  {
    hide EndTick;
    EndQueue(s, x, bound);
  }

  /** A stop puts it on record, unless a covering turn or the one it rides in still has it. */
  lemma StopQueue(s: Loop, x: Letter, bound: int)
    requires Shape(s) && !s.stopped && Tracked(s, x, bound)
    ensures Tracked(Act(s, Stop), x, bound)
  {
    hide TidyStash, ClearAll, HeldEntries, Waiting;
    if Queued(s, x, bound) { FlushQueue(s.(stopped := true), x, bound); }
  }

  lemma StepTracks(s: Loop, a: Action, x: Letter, bound: int)
    requires Shape(s) && Books(s) && Ready(s, a) && Past(a, x)
    requires Tracked(s, x, bound)
    ensures Advances(s, a, Act(s, a), x, bound)
  {
    hide Books, Queued, Shape, PollStep, AckStep, RetryStep, SpawnStep, ReleaseStep, ContinuePlan, FlushOnStop, EndTick;
    match a
    case PollReturns(b, now) => PollQueue(s, a, x, bound);
    case AckReturns(now) => AckQueue(s, a, x, bound);
    case FloorAnswers(answer, now) =>
      if s.phase.Planning? { PlanQueue(s, a, x, bound); } else { RetryQueue(s, answer, x, bound); }
    case SpawnDecided(started, now) => RidersDecided(s); SpawnStepQueue(s, a, x, bound);
    case ReleaseReturns(now) => ReleaseQueue(s, a, x, bound);
    case Stop => StopQueue(s, x, bound);
    case _ => OtherQueue(s, a, x, bound);
  }

  lemma RidersDecided(s: Loop)
    requires s.phase.CoverTurn? || s.phase.OverrunTurn? || s.phase.RetryTurn?
    ensures Spawning(s.phase)
  {
  }

  // ---------------------------------------------------------------------
  // Bounded late delivery
  // ---------------------------------------------------------------------

  /** How often the loop came to service the stash between states `i` and `j`. */
  ghost function Serviced(ss: seq<Loop>, acts: seq<Action>, i: nat, j: nat): nat
    requires i <= j < |ss| && j <= |acts|
  {
    if i == j then 0 else Serviced(ss, acts, i, j - 1) + (if Services(ss[j - 1], acts[j - 1]) then 1 else 0)
  }

  lemma {:induction false} RunTracks(ss: seq<Loop>, acts: seq<Action>, i: nat, j: nat, x: Letter)
    requires IsRun(ss, acts) && i <= j <= |acts|
    requires forall m :: i <= m < j ==> !acts[m].TickThrows? && Past(acts[m], x)
    requires Settlements(ss[i].ledger, x.key) == x.before && Queued(ss[i], x, CONVERSATION_CAP - 1)
    ensures Tracked(ss[j], x, CONVERSATION_CAP - 1 - Serviced(ss, acts, i, j))
  {
    hide Next, Enabled, Act, Ready, Shape, Books, Queued, Riding, Services, Past;
    if i < j {
      RunTracks(ss, acts, i, j - 1, x);
      RunShape(ss, acts, j - 1);
      RunBooks(ss, acts, j - 1);
      RunAct(ss, acts, j - 1);
      StepTracks(ss[j - 1], acts[j - 1], x, CONVERSATION_CAP - 1 - Serviced(ss, acts, i, j - 1));
    }
  }

  /** A message held back past the retry TTL, followed through a run in which the logger does not throw: once the loop
      has come to service the stash CONVERSATION_CAP times, the message has been in a started turn or on a dead-letter
      record, or is in the one held-back turn whose spawn is still undecided, whatever is stashed, covered or retried
      meanwhile and whether or not the loop is stopped. */
  lemma BoundedLateDelivery(ss: seq<Loop>, acts: seq<Action>, i: nat, j: nat, c: string, k: HeldKey)
    requires IsRun(ss, acts) && i <= j <= |acts| && Serviced(ss, acts, i, j) >= CONVERSATION_CAP
    requires c in ss[i].stash.at && k in EntryKeys(ss[i].stash.at[c].entries)
    requires forall m :: i <= m < j ==> !acts[m].TickThrows?
    requires forall m :: i <= m < j && TimeOf(acts[m]).Some? ==> TimeOf(acts[m]).value - ss[i].stash.at[c].since > RETRY_TTL_MS
    ensures
      || Settlements(ss[j].ledger, k) > Settlements(ss[i].ledger, k)
      || ((ss[j].phase.OverrunTurn? || ss[j].phase.RetryTurn?) && k in EntryKeys(ss[j].phase.late.entries))
  {
    hide Next, Enabled, Services, TidyStash;
    var x := Letter(k, c, ss[i].stash.at[c].since, Settlements(ss[i].ledger, k));
    RunShape(ss, acts, i);
    Late.AheadBound(ss[i].stash, c, x.since);
    RunTracks(ss, acts, i, j, x);
  }
}
