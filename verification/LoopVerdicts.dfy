/** What a held-back message is shown with. From the poll that kept it, through the stash, to the late turn that delivers
    it, a message keeps exactly the verdict that poll bound to it; only a pass is dropped, and only when the trust
    generation has moved. */
module LoopVerdicts {
  import opened OrderedMaps
  import opened Messages
  import opened Stashing
  import opened Covering
  import opened ReplyLoop
  import opened LoopShape
  import opened LoopPlans
  import opened LoopTicks
  import opened LoopHeld

  // ---------------------------------------------------------------------
  // What is stored
  // ---------------------------------------------------------------------

  /** Stored beside its message: the tick's verdict under its generation, or, if the tick had none, no verdict or what was
      held beside the same identity before. */
  ghost predicate StoredAs(held: seq<StashEntry>, v: Option<Verdict>, gen: Generation, e: StashEntry) {
    if v.Some? then e.verdict == v && e.generation == Some(gen)
    else e.verdict == None || Inheriting(held, e)
  }

  ghost predicate Inheriting(held: seq<StashEntry>, e: StashEntry) {
    exists o :: o in held && KeyOf(o.message) == KeyOf(e.message) && o.verdict == e.verdict && o.generation == e.generation
  }

  lemma StoredByGroup(s: Loop, g: Group, t: Tick, now: int, e: StashEntry)
    requires s.stash.Valid() && g.conversation in StashGroup(s, g, t, now).stash.at
    requires e in StashGroup(s, g, t, now).stash.at[g.conversation].entries && KeyOf(e.message) in KeysOf(g.messages)
    ensures StoredAs(EntriesOf(s.stash, g.conversation), VerdictFor(t.verdicts, e.message), s.generation, e)
  {
    hide StashAfter, StashDrops, DroppedKeys, MergedAway;
    var held := EntriesOf(s.stash, g.conversation);
    StashedExactly(s.stash, g.conversation, g.messages, t.verdicts, now, Some(s.generation), e);
    if KeyOf(e.message) in File(held).at { FiledEntries(held, KeyOf(e.message)); }
  }

  lemma StoredAsMore(a: seq<StashEntry>, b: seq<StashEntry>, v: Option<Verdict>, gen: Generation, e: StashEntry)
    requires StoredAs(a, v, gen, e) && (a == [] || a == b)
    ensures StoredAs(b, v, gen, e)
  {
  }

  /** What the stash holds of a group deferred, once every group is stashed. */
  lemma StoredByGroups(s: Loop, gs: seq<Group>, i: nat, t: Tick, now: int, e: StashEntry)
    requires Tidy(s.stash) && Filled(gs) && i < |gs| && NoDup(Names(gs))
    requires var r, c := StashGroups(s, gs, t, now), gs[i].conversation; c in r.stash.at && e in r.stash.at[c].entries
    requires KeyOf(e.message) in KeysOf(gs[i].messages)
    ensures StoredAs(EntriesOf(s.stash, gs[i].conversation), VerdictFor(t.verdicts, e.message), s.generation, e)
  {
    hide StashGroup, StashGroups, TidyStash, StoredAs, NoDup;
    var c, m := gs[i].conversation, StashGroups(s, gs[..i], t, now);
    forall n | 0 <= n < |gs| && n != i ensures gs[n].conversation != c {
      NoDupPointwise(Names(gs), if n < i then n else i, if n < i then i else n);
    }
    assert Filled(gs[..i]) && gs[..i][..0] == [];
    OthersStay(s, gs[..i], 0, t, now, c);
    NoneStashed(s, t, now);
    StashGroupsShape(s, gs[..i], t, now);
    OneMoreGroup(s, gs, i, t, now);
    OthersStay(s, gs, i + 1, t, now, c);
    StoredByGroup(m, gs[i], t, now, e);
    StoredAsMore(EntriesOf(m.stash, c), EntriesOf(s.stash, c), VerdictFor(t.verdicts, e.message), s.generation, e);
  }

  lemma DeferredAt(kept: seq<Message>, q: Plan, log: seq<Reply>, m: Message) returns (i: nat)
    requires Sorted(kept, q, log) && q.waiting == [] && m in kept && Reply(m.conversation, Denied) in log
    ensures i < |q.deferred| && q.deferred[i].conversation == m.conversation && KeyOf(m) in KeysOf(q.deferred[i].messages)
    ensures NoDup(Names(q.deferred))
  {
    hide Sorted;
    PlanDecides(kept, q, log, m);
    i :| 0 <= i < |q.deferred| && q.deferred[i].conversation == m.conversation && KeyOf(m) in KeysOf(q.deferred[i].messages);
    DeniedOnce(kept, q, log);
  }

  lemma DeniedOnce(kept: seq<Message>, q: Plan, log: seq<Reply>)
    requires Sorted(kept, q, log)
    ensures NoDup(Names(q.deferred))
  {
    hide AllWhole, Apart, PeerWrites;
    HeardDistinct(log, Denied);
  }

  lemma {:induction false} HeardDistinct(log: seq<Reply>, answer: FloorAnswer)
    requires NoDup(Asked(log))
    ensures NoDup(Heard(log, answer))
  {
    if log != [] {
      var n := |log| - 1;
      assert log == log[..n] + [log[n]];
      assert Asked(log)[..n] == Asked(log[..n]);
      HeardDistinct(log[..n], answer);
      HeardAsked(log[..n], log[n].conversation, answer);
      var rest := Heard(log[..n], answer);
      assert log[n].conversation == Asked(log)[n] && log[n].conversation !in rest;
      assert (rest + [log[n].conversation])[..|rest|] == rest;
      assert Heard(log, answer) == if log[n].answer == answer then rest + [log[n].conversation] else rest;
    }
  }

  lemma FinishStores(b: Batch, s0: Loop, s: Loop, a: Action, q: Plan, log: seq<Reply>, r: Loop, m: Message, e: StashEntry)
    requires |b.results| == |b.messages| && PlanOver(b, s0, s, a, q, log, r) && Tidy(s.stash) && m in b.kept
    requires Reply(m.conversation, Denied) in log && m.conversation in r.stash.at
    requires e in r.stash.at[m.conversation].entries && KeyOf(e.message) == KeyOf(m)
    ensures StoredAs(EntriesOf(s0.stash, m.conversation), VerdictFor(TickOf(b).verdicts, m), b.generation, e)
  {
    hide FinishPlan, Sorted, TidyStash, StoredAs, TickOf, StashGroups;
    var i := DeferredAt(b.kept, q, log, m);
    DeferredFilled(b.kept, q, log);
    FinishLeaves(s, TickOf(b), q, a.now);
    StoredByGroups(s, q.deferred, i, TickOf(b), a.now, e);
  }

  /** What a poll says of `m` is what the entry keeps. */
  ghost predicate KeepsThePoll(b: Batch, m: Message, held: seq<StashEntry>, e: StashEntry)
    requires |b.results| == |b.messages|
  {
    exists v :: Says(b, m, v) && StoredAs(held, v, b.generation, e)
  }

  /** A message held back because its conversation was denied the floor is stored with exactly what its poll said of it. */
  lemma StashKeepsThePoll(ss: seq<Loop>, acts: seq<Action>, k: nat, j: nat, m: Message, e: StashEntry)
    requires TickRuns(ss, acts, k, j) && !HasTick(ss[j].phase) && m in acts[k].batch.kept
    requires Reply(m.conversation, Denied) in Replies(ss, acts, k, j) && m.conversation in ss[j].stash.at
    requires e in ss[j].stash.at[m.conversation].entries && KeyOf(e.message) == KeyOf(m)
    ensures |acts[k].batch.results| == |acts[k].batch.messages|
    ensures KeepsThePoll(acts[k].batch, m, EntriesOf(ss[k].stash, m.conversation), e)
  {
    hide Enabled, Next, Act, PollStep, PlanOver, LastPlan, TidyStash, Says, StoredAs, TickOf;
    var b := acts[k].batch;
    PollStarts(ss, acts, k);
    RunPlanOver(ss, acts, k, j);
    BeforeTheEnd(ss, acts, k, j);
    FinishStores(b, ss[k], ss[j - 1], acts[j - 1], LastPlan(ss[j - 1], acts[j - 1]), Replies(ss, acts, k, j), ss[j], m, e);
    TickSays(b, m);
  }

  // ---------------------------------------------------------------------
  // What a late turn renders
  // ---------------------------------------------------------------------

  /** A stored verdict as a turn spawned under `now` shows it. */
  function ShownUnder(v: Option<Verdict>, computed: Option<Generation>, now: Generation): Option<Verdict> {
    if v.Some? && v.value.verified && computed != Some(now) then None else v
  }

  lemma {:induction false} StashLabelsExactly(es: seq<StashEntry>, gen: Generation, i: nat)
    requires NoDup(EntryKeys(es)) && i < |es|
    ensures KeyOf(es[i].message) in StashLabels(es, gen)
    ensures StashLabels(es, gen)[KeyOf(es[i].message)] == ShownUnder(es[i].verdict, es[i].generation, gen)
  {
    var n := |es| - 1;
    assert EntryKeys(es[..n]) == EntryKeys(es)[..n];
    if i < n {
      StashLabelsExactly(es[..n], gen, i);
      assert EntryKeys(es)[..n][i] == KeyOf(es[i].message);
    }
  }

  predicate Late(p: Phase) {
    p.OverrunTurn? || p.RetryTurn?
  }

  /** If a late turn has just been spawned, its labels are its entries'. */
  ghost predicate RendersLate(turns: seq<Turn>, r: Loop) {
    Late(r.phase) ==> r.turns == turns + [Turn(StashLabels(r.phase.late.entries, r.generation), r.generation)]
  }

  lemma WalkRenders(s: Loop, cs: seq<string>, now: int)
    requires s.stash.Valid()
    ensures !Late(WalkRetries(s, cs, now).phase)
  {
  }

  lemma ServiceRenders(s: Loop, now: int)
    requires s.stash.Valid()
    ensures RendersLate(s.turns, ServiceDeferred(s, now))
  {
    hide WalkRetries, StashLabels;
    EndNoTick(s);
    WalkRenders(s, RetryOrder(s.stash, now), now);
    if ExpiredOrder(s.stash, now) != [] { assert ExpiredOrder(s.stash, now)[0] in ExpiredOrder(s.stash, now); }
  }

  lemma AfterCoverRenders(s: Loop, floors: seq<string>, now: int)
    requires s.stash.Valid()
    ensures RendersLate(s.turns, AfterCoverTurn(s, floors, now))
  {
    hide ServiceDeferred, EndTick;
    EndNoTick(s);
    ServiceRenders(s, now);
  }

  lemma CoverEndTurns(s: Loop, started: bool)
    requires s.stash.Valid() && s.phase.CoverTurn?
    ensures (if started then CoverStarted(s) else CoverFailed(s)).stash.Valid()
    ensures (if started then CoverStarted(s) else CoverFailed(s)).turns == s.turns
  {
  }

  lemma SpawnRenders(s: Loop, started: bool, now: int)
    requires s.stash.Valid() && Spawning(s.phase)
    ensures RendersLate(s.turns, SpawnStep(s, started, now))
  {
    hide EndTick, WalkRetries, AfterCoverTurn, CoverStarted, CoverFailed, StashLabels;
    match s.phase
    case CoverTurn(floors, _, _, _) =>
      CoverEndTurns(s, started);
      AfterCoverRenders(if started then CoverStarted(s) else CoverFailed(s), floors, now);
    case OverrunTurn(late, at) =>
      var t := HeldBackEnded(s, late, started);
      EndNoTick(t);
      WalkRenders(t, RetryOrder(t.stash, at), at);
    case RetryTurn(c, late) =>
  }

  lemma RetryRenders(s: Loop, answer: FloorAnswer)
    requires s.stash.Valid() && s.phase.RetryAsk?
    ensures RendersLate(s.turns, RetryStep(s, answer))
  {
    hide EndTick, WalkRetries, StashLabels;
    EndNoTick(s);
    WalkRenders(s, s.phase.rest, s.phase.at);
  }

  lemma ReleaseRenders(s: Loop, now: int)
    requires s.stash.Valid() && (s.phase.HandingBack? || s.phase.Releasing? || s.phase.RetryRelease?)
    ensures RendersLate(s.turns, ReleaseStep(s, now))
  {
    hide EndTick, WalkRetries, AfterCoverTurn;
    EndNoTick(s);
    match s.phase
    case HandingBack(_, others) =>
    case Releasing(_, others) => AfterCoverRenders(s, others, now);
    case RetryRelease(_, rest, more, at) => WalkRenders(s, rest, at);
  }

  lemma FinishRenders(s: Loop, t: Tick, q: Plan, now: int)
    requires Tidy(s.stash) && Filled(q.deferred)
    ensures RendersLate(s.turns, FinishPlan(s, t, q, now))
  {
    hide StashGroups, ServiceDeferred, EndTick, Cover, CoveredBy, StashLabels, TidyStash;
    EndNoTick(s);
    StashGroupsShape(s, q.deferred, t, now);
    if !s.stopped && q.floored == [] { ServiceRenders(StashGroups(s, q.deferred, t, now).(unhanded := []), now); }
  }

  lemma ContinueRenders(s: Loop, t: Tick, p: Plan, now: int)
    requires Tidy(s.stash) && FilledPlan(p)
    ensures RendersLate(s.turns, ContinuePlan(s, t, p, now))
  {
    hide FinishPlan, SkipOperatorOnly, StashLabels, TidyStash;
    SkipFilled(p);
    FinishRenders(s, t, SkipOperatorOnly(p), now);
  }

  lemma AckRenders(s: Loop, now: int)
    requires Tidy(s.stash) && (s.phase.QuietAck? || s.phase.Acking?)
    ensures RendersLate(s.turns, AckStep(s, now))
  {
    hide ContinuePlan, EndTick, ServiceDeferred, TidyStash;
    EndNoTick(s);
    ServiceRenders(s, now);
    if s.phase.Acking? {
      GroupsFilled(s.phase.tick.kept);
      ContinueRenders(s, s.phase.tick, Plan(GroupsOf(s.phase.tick.kept), [], [], []), now);
    }
  }

  lemma PollRenders(s: Loop, b: Batch, now: int)
    requires s.stash.Valid() && ValidBatch(b)
    ensures RendersLate(s.turns, PollStep(s, b, now))
  {
    hide EndTick, ServiceDeferred, TickOf;
    EndNoTick(s);
    ServiceRenders(s.(generation := b.generation), now);
  }

  lemma ActRenders(s: Loop, a: Action)
    requires Shape(s) && Ready(s, a)
    ensures Act(s, a).phase == s.phase || RendersLate(s.turns, Act(s, a))
  {
    hide PollStep, AckStep, ContinuePlan, RetryStep, SpawnStep, ReleaseStep, EndTick, Answered, StashLabels, TidyStash;
    match a
    case PollReturns(b, now) => PollRenders(s, b, now);
    case AckReturns(now) => AckRenders(s, now);
    case FloorAnswers(answer, now) =>
      if s.phase.Planning? { PlanRenders(s, answer, now); } else { RetryRenders(s, answer); }
    case SpawnDecided(started, now) => SpawnRenders(s, started, now);
    case ReleaseReturns(now) => ReleaseRenders(s, now);
    case _ => EndNoTick(s);
  }

  lemma PlanRenders(s: Loop, answer: FloorAnswer, now: int)
    requires Shape(s) && s.phase.Planning? && s.phase.plan.waiting != []
    ensures RendersLate(s.turns, ContinuePlan(s, s.phase.tick, Answered(s.phase.plan, answer), now))
  {
    hide ContinuePlan, TidyStash;
    assert s.phase.plan.waiting[0] in s.phase.plan.waiting;
    ContinueRenders(s, s.phase.tick, Answered(s.phase.plan, answer), now);
  }

  /** Step `i` spawns a late turn over `late`. */
  ghost predicate SpawnsLate(ss: seq<Loop>, acts: seq<Action>, i: nat, late: Stash)
    requires i < |acts| && |ss| == |acts| + 1
  {
    !acts[i].TickThrows? && Late(ss[i + 1].phase) && ss[i + 1].phase != ss[i].phase && ss[i + 1].phase.late == late
  }

  /** A late turn shows each of its messages with exactly the verdict stored beside it, a pass of another generation being
      none. */
  lemma LateTurnShowsTheStored(ss: seq<Loop>, acts: seq<Action>, i: nat, c: string, n: nat)
    requires IsRun(ss, acts) && i < |acts| && c in ss[i].stash.at && SpawnsLate(ss, acts, i, ss[i].stash.at[c])
    requires n < |ss[i].stash.at[c].entries|
    ensures
      var e, gen := ss[i].stash.at[c].entries[n], ss[i + 1].generation;
      && |ss[i + 1].turns| == |ss[i].turns| + 1
      && var turn := ss[i + 1].turns[|ss[i].turns|];
         turn.generation == gen && KeyOf(e.message) in turn.labels
         && turn.labels[KeyOf(e.message)] == ShownUnder(e.verdict, e.generation, gen)
  {
    hide Enabled, Next, Act, Ready;
    RunShape(ss, acts, i);
    RunAct(ss, acts, i);
    ActRenders(ss[i], acts[i]);
    StashLabelsExactly(ss[i].stash.at[c].entries, ss[i + 1].generation, n);
  }

  /** `shown` is what a turn under `now` shows of a message that `e` was stored for. */
  ghost predicate ShowsThePoll(b: Batch, m: Message, held: seq<StashEntry>, shown: Option<Verdict>, now: Generation)
    requires |b.results| == |b.messages|
  {
    exists e: StashEntry :: KeepsThePoll(b, m, held, e) && KeyOf(e.message) == KeyOf(m) && shown == ShownUnder(e.verdict, e.generation, now)
  }

  /** In every run: a message whose conversation was denied the floor in the tick of poll `k`, and which a late turn
      delivers later with no fresh message of that conversation kept meanwhile, is shown with exactly what poll `k` said of
      it, a pass only if the generation is still that poll's. */
  lemma LateTurnShowsThePoll(ss: seq<Loop>, acts: seq<Action>, k: nat, j: nat, i: nat, m: Message, n: nat)
    requires TickRuns(ss, acts, k, j) && !HasTick(ss[j].phase) && m in acts[k].batch.kept
    requires Reply(m.conversation, Denied) in Replies(ss, acts, k, j)
    requires j <= i < |acts| && Silent(acts, j, i, m.conversation)
    requires m.conversation in ss[i].stash.at && SpawnsLate(ss, acts, i, ss[i].stash.at[m.conversation])
    requires var es := ss[i].stash.at[m.conversation].entries; n < |es| && KeyOf(es[n].message) == KeyOf(m)
    ensures |acts[k].batch.results| == |acts[k].batch.messages| && |ss[i + 1].turns| == |ss[i].turns| + 1
    ensures
      var turn := ss[i + 1].turns[|ss[i].turns|];
      && KeyOf(m) in turn.labels
      && ShowsThePoll(acts[k].batch, m, EntriesOf(ss[k].stash, m.conversation), turn.labels[KeyOf(m)], turn.generation)
  {
    hide Enabled, Next, Act, Ready, KeepsThePoll, ShownUnder, Writes;
    var c := m.conversation;
    StashIsRemembered(ss, acts, j, i, c);
    var e := ss[i].stash.at[c].entries[n];
    StashKeepsThePoll(ss, acts, k, j, m, e);
    LateTurnShowsTheStored(ss, acts, i, c, n);
  }
}
