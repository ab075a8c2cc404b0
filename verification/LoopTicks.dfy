/** One tick, from the poll's answer to the turn it ends in: which of the kept messages are aboard that turn, which are
    held back, whose floors the turn holds, and the verdict each message is shown with. */
module LoopTicks {
  import opened OrderedMaps
  import opened Messages
  import opened Stashing
  import opened Covering
  import opened ReplyLoop
  import opened LoopShape
  import opened LoopPlans
  import LoopLate
  import LoopStop
  import Late = LateDelivery

  // ---------------------------------------------------------------------
  // What a poll says of a message
  // ---------------------------------------------------------------------

  ghost predicate LastOf(ms: seq<Message>, id: string, i: nat) {
    && i < |ms| && ms[i].id == id
    && forall j :: i < j < |ms| ==> ms[j].id != id
  }

  /** Nothing if two different messages of the batch claim its id, else a durable rejection of that id if there is one,
      else what verification computed for the last message with that id. */
  ghost predicate Says(b: Batch, m: Message, v: Option<Verdict>)
    requires |b.results| == |b.messages|
  {
    if exists n :: n in b.messages && n.id == m.id && KeyOf(n) != KeyOf(m) then v == None
    else if m.id in b.rejected then v == Some(b.rejected[m.id])
    else exists i: nat :: LastOf(b.messages, m.id, i) && v == b.results[i]
  }

  lemma {:induction false} LastResult(batch: seq<Message>, results: seq<Option<Verdict>>, id: string) returns (i: nat)
    requires |batch| == |results| && id in VerdictsById(batch, results)
    ensures LastOf(batch, id, i) && VerdictsById(batch, results)[id] == results[i]
  {
    var n := |batch| - 1;
    if batch[n].id == id {
      i := n;
    } else {
      i := LastResult(batch[..n], results[..n], id);
    }
  }

  lemma TickSays(b: Batch, m: Message)
    requires |b.results| == |b.messages| && m in b.messages
    ensures Says(b, m, VerdictFor(TickOf(b).verdicts, m))
  {
    var byId := VerdictsById(b.messages, b.results);
    assert m.id in byId;
    var all := Admission(b.messages, b.results, b.rejected);
    assert VerdictFor(TickOf(b).verdicts, m) == VerdictOfKey(b.messages, all, KeyOf(m));
    if !Contested(b.messages, KeyOf(m)) && m.id !in b.rejected {
      var i := LastResult(b.messages, b.results, m.id);
    }
  }

  // ---------------------------------------------------------------------
  // A tick in progress
  // ---------------------------------------------------------------------

  /** The reply a step brings to floor planning. */
  function ReplyOf(s: Loop, a: Action): seq<Reply> {
    if a.FloorAnswers? && s.phase.Planning? && s.phase.plan.waiting != [] then [Reply(s.phase.plan.waiting[0].conversation, a.answer)]
    else []
  }

  /** The replies between states `k` and `j`. */
  ghost function Replies(ss: seq<Loop>, acts: seq<Action>, k: nat, j: nat): seq<Reply>
    requires k <= j < |ss| && j <= |acts|
    decreases j
  {
    if j == k then [] else Replies(ss, acts, k, j - 1) + ReplyOf(ss[j - 1], acts[j - 1])
  }

  /** Nothing but the tick itself has moved since its poll answered `b` to the loop `s0`. */
  ghost predicate Untouched(b: Batch, s0: Loop, s: Loop) {
    && s.generation == b.generation && s.stash == s0.stash && s.turns == s0.turns
    && s.ledger.dead == s0.ledger.dead && s.ledger.started == s0.ledger.started
    && s.ledger.admitted == s0.ledger.admitted + (if s.phase.Noticing? then multiset{} else multiset(KeysOf(b.kept)))
    && s0.effects <= s.effects
    && if s.phase.Noticing? then s.effects == s0.effects else |s.effects| > |s0.effects| && s.effects[|s0.effects|] == AckStarted
  }

  /** The conversations of a batch in the order of their first messages. */
  function Appearing(kept: seq<Message>): (cs: seq<string>)
    ensures NoDup(cs)
  {
    Union([], ConversationsOf(kept))
  }

  ghost predicate Planned(b: Batch, p: Phase, log: seq<Reply>) {
    if p.Planning? then Sorted(b.kept, p.plan, log) && Laid(b.kept, Appearing(b.kept), p.plan, log) && p.plan.waiting != [] && HasPeer(p.plan.waiting[0]) else log == []
  }

  ghost predicate Underway(b: Batch, s0: Loop, s: Loop, log: seq<Reply>)
    requires |b.results| == |b.messages|
  {
    HasTick(s.phase) && s.phase.tick == TickOf(b) && Untouched(b, s0, s) && Planned(b, s.phase, log)
  }

  /** The plan the tick ends planning with, if this step ends it. */
  function LastPlan(s: Loop, a: Action): Plan
    requires s.phase.Acking? || (s.phase.Planning? && s.phase.plan.waiting != [] && a.FloorAnswers?)
  {
    if s.phase.Acking? then SkipOperatorOnly(Plan(GroupsOf(s.phase.tick.kept), [], [], [])) else FinalPlan(s, a)
  }

  predicate EndsPlanning(a: Action) {
    a.AckReturns? || a.FloorAnswers?
  }

  /** Planning is over, with the plan `q` over the batch's kept messages. */
  ghost predicate PlanOver(b: Batch, s0: Loop, s: Loop, a: Action, q: Plan, log: seq<Reply>, r: Loop)
    requires |b.results| == |b.messages|
  {
    && (s.phase.Acking? || s.phase.Planning?) && EndsPlanning(a) && s.stash.Valid() && !s.stopped
    && Untouched(b, s0, s) && Sorted(b.kept, q, log) && Laid(b.kept, Appearing(b.kept), q, log) && q.waiting == []
    && r == FinishPlan(s, TickOf(b), q, a.now)
  }

  lemma TickKeeps(b: Batch)
    requires |b.results| == |b.messages|
    ensures TickOf(b).kept == b.kept
  {
  }

  lemma ServedNoTick(s: Loop, now: int)
    requires s.stash.Valid()
    ensures !HasTick(ServiceDeferred(s, now).phase) && !ServiceDeferred(s, now).phase.CoverTurn?
  {
    if ExpiredOrder(s.stash, now) != [] { assert ExpiredOrder(s.stash, now)[0] in ExpiredOrder(s.stash, now); }
  }

  lemma FinishedNoTick(s: Loop, t: Tick, p: Plan, now: int)
    requires s.stash.Valid()
    ensures !HasTick(FinishPlan(s, t, p, now).phase)
  {
    hide StashGroups, ServiceDeferred, Cover, CoveredBy;
    if !s.stopped && p.floored == [] { ServedNoTick(StashGroups(s, p.deferred, t, now).(unhanded := []), now); }
  }

  lemma PollUnderway(s: Loop, b: Batch, now: int)
    requires s.stash.Valid() && ValidBatch(b) && !s.stopped && s.phase.Polling?
    ensures if HasTick(PollStep(s, b, now).phase) then Underway(b, s, PollStep(s, b, now), []) else b.kept == [] && !PollStep(s, b, now).phase.CoverTurn?
  {
    hide TickOf, ServiceDeferred;
    TickKeeps(b);
    ServedNoTick(s.(generation := b.generation), now);
  }

  lemma ContinueUnderway(b: Batch, s0: Loop, s: Loop, p: Plan, log: seq<Reply>, now: int)
    requires |b.results| == |b.messages| && s.stash.Valid() && !s.stopped && (s.phase.Acking? || s.phase.Planning?)
    requires Untouched(b, s0, s) && Sorted(b.kept, p, log) && Laid(b.kept, Appearing(b.kept), p, log)
    ensures
      var q, r := SkipOperatorOnly(p), ContinuePlan(s, TickOf(b), p, now);
      && Sorted(b.kept, q, log) && Laid(b.kept, Appearing(b.kept), q, log)
      && if q.waiting == [] then r == FinishPlan(s, TickOf(b), q, now) && !HasTick(r.phase) else Underway(b, s0, r, log)
  {
    hide FinishPlan, SkipOperatorOnly, Sorted, Laid, TickOf, Laid;
    SkipSorted(b.kept, p, log);
    SkipLaid(b.kept, Appearing(b.kept), p, log);
    FinishedNoTick(s, TickOf(b), SkipOperatorOnly(p), now);
  }

  /** What a step makes of a tick under way: it goes on, or its planning is over. */
  ghost predicate GoesOn(b: Batch, s0: Loop, s: Loop, a: Action, log: seq<Reply>, r: Loop)
    requires |b.results| == |b.messages|
  {
    if HasTick(r.phase) then Underway(b, s0, r, log)
    else if b.kept == [] then !r.phase.CoverTurn?
    else
      && (s.phase.Acking? || (s.phase.Planning? && s.phase.plan.waiting != [] && a.FloorAnswers?))
      && PlanOver(b, s0, s, a, LastPlan(s, a), log, r)
  }

  lemma AckGoesOn(b: Batch, s0: Loop, s: Loop, a: Action)
    requires |b.results| == |b.messages| && Underway(b, s0, s, []) && s.phase.Acking? && a.AckReturns? && s.stash.Valid() && !s.stopped
    ensures GoesOn(b, s0, s, a, [], AckStep(s, a.now))
  {
    hide ContinuePlan, FinishPlan, SkipOperatorOnly, Sorted, Laid, TickOf, ServiceDeferred, GroupsOf, Untouched;
    TickKeeps(b);
    if b.kept == [] {
      ServedNoTick(s, a.now);
    } else {
      StartsSorted(b.kept);
      StartsLaid(b.kept);
      ContinueUnderway(b, s0, s, Plan(GroupsOf(b.kept), [], [], []), [], a.now);
    }
  }

  lemma PlanGoesOn(b: Batch, s0: Loop, s: Loop, a: Action, log: seq<Reply>)
    requires |b.results| == |b.messages| && Underway(b, s0, s, log) && s.phase.Planning? && a.FloorAnswers? && s.stash.Valid() && !s.stopped
    ensures
      s.phase.plan.waiting != []
      && GoesOn(b, s0, s, a, log + ReplyOf(s, a), ContinuePlan(s, s.phase.tick, Answered(s.phase.plan, a.answer), a.now))
  {
    hide ContinuePlan, FinishPlan, SkipOperatorOnly, Sorted, Laid, TickOf, Answered, Untouched;
    AnsweredSorted(b.kept, s.phase.plan, log, a.answer);
    AnsweredLaid(b.kept, Appearing(b.kept), s.phase.plan, log, a.answer);
    ContinueUnderway(b, s0, s, Answered(s.phase.plan, a.answer), log + ReplyOf(s, a), a.now);
    PlanIsKept(b.kept, Answered(s.phase.plan, a.answer), log + ReplyOf(s, a));
  }

  /** No plan over nothing waits for an answer. */
  lemma PlanIsKept(kept: seq<Message>, p: Plan, log: seq<Reply>)
    requires Sorted(kept, p, log)
    ensures log != [] ==> kept != []
  {
    if log != [] { assert Asked(log)[0] in Asked(log); }
  }

  /** While a tick is under way, a step of an unstopped loop keeps it so, or ends its planning. */
  lemma UnderwayStep(b: Batch, s0: Loop, s: Loop, a: Action, log: seq<Reply>)
    requires |b.results| == |b.messages| && Underway(b, s0, s, log) && Ready(s, a) && !s.stopped && !a.Stop?
    ensures GoesOn(b, s0, s, a, log + ReplyOf(s, a), Act(s, a))
  {
    hide ContinuePlan, AckStep, Sorted, Laid, TickOf, Answered, GoesOn;
    if s.phase.Acking? {
      assert log + ReplyOf(s, a) == [];
      AckGoesOn(b, s0, s, a);
    } else if s.phase.Planning? {
      PlanGoesOn(b, s0, s, a, log);
    } else {
      NoticeGoesOn(b, s0, s, a);
      assert log + ReplyOf(s, a) == [];
    }
  }

  lemma NoticeGoesOn(b: Batch, s0: Loop, s: Loop, a: Action)
    requires |b.results| == |b.messages| && Underway(b, s0, s, []) && s.phase.Noticing? && s.stash.Valid() && !s.stopped
    ensures GoesOn(b, s0, s, a, [], NoticeStep(s))
  {
    hide TickOf, PlanOver, LastPlan;
    TickKeeps(b);
  }

  // ---------------------------------------------------------------------
  // Over a run
  // ---------------------------------------------------------------------

  /** The answer to poll `k` is what the loop is busy with up to `j`; it is not stopped and the logger does not throw. */
  ghost predicate TickRuns(ss: seq<Loop>, acts: seq<Action>, k: nat, j: nat) {
    && IsRun(ss, acts) && k < j <= |acts| && acts[k].PollReturns?
    && (forall i :: k < i < j ==> HasTick(ss[i].phase))
    && (forall i :: k <= i < j ==> !acts[i].TickThrows?)
    && (forall i :: k <= i <= j ==> !ss[i].stopped)
  }

  lemma PollStarts(ss: seq<Loop>, acts: seq<Action>, k: nat)
    requires IsRun(ss, acts) && k < |acts| && acts[k].PollReturns?
    ensures ValidBatch(acts[k].batch) && ss[k].stash.Valid() && ss[k].phase.Polling?
    ensures ss[k + 1] == PollStep(ss[k], acts[k].batch, acts[k].now)
  {
    hide PollStep, ValidBatch;
    RunAct(ss, acts, k);
  }

  lemma StopStops(s: Loop)
    requires Ready(s, Stop)
    ensures Act(s, Stop).stopped
  {
  }

  lemma NoStop(ss: seq<Loop>, acts: seq<Action>, i: nat)
    requires IsRun(ss, acts) && i < |acts| && !acts[i].TickThrows? && !ss[i + 1].stopped
    ensures !acts[i].Stop?
  {
    hide Act, Ready, Enabled, Next;
    RunAct(ss, acts, i);
    if acts[i].Stop? { StopStops(ss[i]); }
  }

  lemma {:induction false} RunUnderway(ss: seq<Loop>, acts: seq<Action>, k: nat, j: nat)
    requires TickRuns(ss, acts, k, j) && HasTick(ss[j].phase)
    ensures |acts[k].batch.results| == |acts[k].batch.messages|
    ensures Underway(acts[k].batch, ss[k], ss[j], Replies(ss, acts, k, j))
    decreases j
  {
    hide Enabled, Next, Ready, Act, Underway, PlanOver, LastPlan, PollStep;
    PollStarts(ss, acts, k);
    if j == k + 1 {
      PollUnderway(ss[k], acts[k].batch, acts[k].now);
      assert Replies(ss, acts, k, j) == Replies(ss, acts, k, k) + ReplyOf(ss[k], acts[k]) == [];
    } else {
      RunUnderway(ss, acts, k, j - 1);
      RunAct(ss, acts, j - 1);
      NoStop(ss, acts, j - 1);
      UnderwayStep(acts[k].batch, ss[k], ss[j - 1], acts[j - 1], Replies(ss, acts, k, j - 1));
    }
  }

  lemma RunPlanOver(ss: seq<Loop>, acts: seq<Action>, k: nat, j: nat)
    requires TickRuns(ss, acts, k, j) && !HasTick(ss[j].phase) && (acts[k].batch.kept != [] || ss[j].phase.CoverTurn?)
    ensures |acts[k].batch.results| == |acts[k].batch.messages|
    ensures ss[j - 1].phase.Acking? || (ss[j - 1].phase.Planning? && ss[j - 1].phase.plan.waiting != [] && acts[j - 1].FloorAnswers?)
    ensures PlanOver(acts[k].batch, ss[k], ss[j - 1], acts[j - 1], LastPlan(ss[j - 1], acts[j - 1]), Replies(ss, acts, k, j), ss[j])
  {
    hide Enabled, Next, Ready, Act, Underway, PlanOver, LastPlan, PollStep;
    PollStarts(ss, acts, k);
    if j == k + 1 {
      PollUnderway(ss[k], acts[k].batch, acts[k].now);
    } else {
      RunUnderway(ss, acts, k, j - 1);
      RunAct(ss, acts, j - 1);
      NoStop(ss, acts, j - 1);
      UnderwayStep(acts[k].batch, ss[k], ss[j - 1], acts[j - 1], Replies(ss, acts, k, j - 1));
    }
  }

  // ---------------------------------------------------------------------
  // What planning ends in
  // ---------------------------------------------------------------------

  lemma StashedHas(d: Stashes, g: Group, vs: Verdicts, now: int, gen: Option<Generation>, k: HeldKey)
    requires Tidy(d) && k in KeysOf(g.messages)
    ensures
      var r := StashAfter(d, g.conversation, g.messages, vs, now, gen);
      || (g.conversation in r.at && k in EntryKeys(r.at[g.conversation].entries))
      || DroppedKeys(StashDrops(d, g.conversation, g.messages, vs, now, gen))[k] > 0
  {
    hide DroppedKeys, EvictionDrops, TidyStash;
    var c, es := g.conversation, Ordered(d, g.conversation, g.messages, vs, gen);
    OrderedKeys(d, c, g.messages, vs, gen);
    Late.OverflowIsRecorded(c, es, k);
    SplitKeys(es, Overflow(|es|));
    StashKeepsNewest(d, c, g.messages, vs, now, gen);
    if k !in EntryKeys(es[Overflow(|es|)..]) {
      Late.OnRecordBefore(OverflowDrop(c, es), EvictionDrops(Restashed(d, c, g.messages, vs, now, gen)), k);
      LoopLate.RecordedCounts(StashDrops(d, c, g.messages, vs, now, gen), k);
    }
  }

  /** Held in its conversation's stash, or newly on a dead-letter record. */
  ghost predicate Kept(d: Stashes, c: string, k: HeldKey, dead: Keys, dead': Keys) {
    (c in d.at && k in EntryKeys(d.at[c].entries)) || dead'[k] > dead[k]
  }

  lemma StillKept(s: Loop, g: Group, t: Tick, now: int, c: string, k: HeldKey, dead: Keys)
    requires Tidy(s.stash) && Kept(s.stash, c, k, dead, s.ledger.dead) && s.ledger.dead[k] >= dead[k]
    ensures Kept(StashGroup(s, g, t, now).stash, c, k, dead, StashGroup(s, g, t, now).ledger.dead)
  {
    hide StashAfter, StashDrops, DroppedKeys, TidyStash;
    if c in s.stash.at && k in EntryKeys(s.stash.at[c].entries) {
      var gen := Some(s.generation);
      Late.HeldOrRecorded(s.stash, g.conversation, g.messages, t.verdicts, now, gen, c, k, s.stash.at[c].since);
      var drops := StashDrops(s.stash, g.conversation, g.messages, t.verdicts, now, gen);
      if Late.OnRecord(drops, k) { LoopLate.RecordedCounts(drops, k); }
    }
  }

  lemma GroupKept(s: Loop, g: Group, t: Tick, now: int, k: HeldKey, dead: Keys)
    requires Tidy(s.stash) && k in KeysOf(g.messages) && s.ledger.dead[k] >= dead[k]
    ensures Kept(StashGroup(s, g, t, now).stash, g.conversation, k, dead, StashGroup(s, g, t, now).ledger.dead)
  {
    hide StashAfter, StashDrops, DroppedKeys, TidyStash;
    StashedHas(s.stash, g, t.verdicts, now, Some(s.generation), k);
  }

  lemma {:induction false} GroupsKept(s: Loop, gs: seq<Group>, t: Tick, now: int, i: nat, k: HeldKey)
    requires Tidy(s.stash) && Filled(gs) && i < |gs| && k in KeysOf(gs[i].messages)
    ensures
      var r := StashGroups(s, gs, t, now);
      r.ledger.dead[k] >= s.ledger.dead[k] && Kept(r.stash, gs[i].conversation, k, s.ledger.dead, r.ledger.dead)
  {
    hide StashGroup, Kept, TidyStash;
    var n := |gs| - 1;
    var m := StashGroups(s, gs[..n], t, now);
    assert Filled(gs[..n]);
    StashGroupsShape(s, gs[..n], t, now);
    DeadGrows(s, gs[..n], t, now, k);
    DeadGrows(s, gs, t, now, k);
    if i == n {
      GroupKept(m, gs[n], t, now, k, s.ledger.dead);
    } else {
      GroupsKept(s, gs[..n], t, now, i, k);
      StillKept(m, gs[n], t, now, gs[i].conversation, k, s.ledger.dead);
    }
  }

  lemma {:induction false} DeadGrows(s: Loop, gs: seq<Group>, t: Tick, now: int, k: HeldKey)
    requires s.stash.Valid()
    ensures StashGroups(s, gs, t, now).ledger.dead[k] >= s.ledger.dead[k]
  {
    hide StashAfter, StashDrops, DroppedKeys, MergedAway;
    if gs != [] { DeadGrows(s, gs[..|gs| - 1], t, now, k); }
  }

  /** Held back: in its conversation's stash, or newly on record, or in the overdue stash it joined, which the loop, with
      no turn of its own to run, has just sent out. */
  ghost predicate HeldBack(before: Loop, r: Loop, c: string, k: HeldKey) {
    || Kept(r.stash, c, k, before.ledger.dead, r.ledger.dead)
    || (r.phase.OverrunTurn? && k in EntryKeys(r.phase.late.entries) && r.phase.at - r.phase.late.since > RETRY_TTL_MS)
  }

  lemma ServedHeldBack(before: Loop, s: Loop, now: int, c: string, k: HeldKey)
    requires s.stash.Valid() && !s.stopped && !s.inFlight && Kept(s.stash, c, k, before.ledger.dead, s.ledger.dead)
    ensures HeldBack(before, ServiceDeferred(s, now), c, k) && !ServiceDeferred(s, now).phase.CoverTurn?
  {
    if ExpiredOrder(s.stash, now) != [] {
      var x := ExpiredOrder(s.stash, now)[0];
      assert x in ExpiredOrder(s.stash, now);
    }
  }

  /** What planning ends in, said of one group it defers. */
  lemma FinishHoldsBack(s: Loop, t: Tick, q: Plan, now: int, i: nat, k: HeldKey)
    requires Tidy(s.stash) && Filled(q.deferred) && !s.stopped && !s.inFlight && i < |q.deferred| && k in KeysOf(q.deferred[i].messages)
    ensures HeldBack(s, FinishPlan(s, t, q, now), q.deferred[i].conversation, k)
  {
    hide StashGroups, Cover, CoveredBy, Kept, TidyStash, ServiceDeferred;
    GroupsKept(s, q.deferred, t, now, i, k);
    StashGroupsShape(s, q.deferred, t, now);
    var stashed := StashGroups(s, q.deferred, t, now).(unhanded := []);
    if q.floored == [] { ServedHeldBack(s, stashed, now, q.deferred[i].conversation, k); }
  }

  /** A turn over what was cleared, and the verdicts it renders. */
  ghost predicate Boarded(s0: Loop, b: Batch, vs: Verdicts, q: Plan, r: Loop) {
    && r.phase.CoverTurn? && r.phase.floors == q.toRelease && r.phase.floored == q.floored
    && r.phase.cargo == Cover(r.stash, q.floored, vs, b.generation) && r.phase.covered == CoveredBy(r.stash, q.floored)
    && r.turns == s0.turns + [Turn(r.phase.cargo.labels, b.generation)]
  }

  lemma FinishBoards(b: Batch, s0: Loop, s: Loop, q: Plan, now: int)
    requires |b.results| == |b.messages| && Tidy(s.stash) && Filled(q.deferred) && !s.stopped && Untouched(b, s0, s) && q.floored != []
    ensures Boarded(s0, b, TickOf(b).verdicts, q, FinishPlan(s, TickOf(b), q, now))
  {
    hide StashGroups, Cover, CoveredBy, TidyStash, TickOf;
    StashGroupsShape(s, q.deferred, TickOf(b), now);
  }

  lemma WholeFilled(kept: seq<Message>, gs: seq<Group>)
    requires AllWhole(kept, gs) && forall i :: 0 <= i < |gs| ==> Writes(kept, gs[i].conversation)
    ensures Filled(gs)
  {
    forall g | g in gs ensures g.messages != [] {
      var i :| 0 <= i < |gs| && gs[i] == g;
      assert Whole(kept, gs[i]);
      WholeHas(kept, gs[i]);
      var m :| m in kept && m.conversation == g.conversation;
      assert m in g.messages;
    }
  }

  /** A conversation answered `Denied` is one with a peer message, so its group is not empty. */
  lemma DeferredFilled(kept: seq<Message>, q: Plan, log: seq<Reply>)
    requires Sorted(kept, q, log)
    ensures Filled(q.deferred)
  {
    hide PeerWrites, Heard;
    forall i | 0 <= i < |q.deferred| ensures Writes(kept, q.deferred[i].conversation) {
      var c := q.deferred[i].conversation;
      assert Names(q.deferred)[i] == c;
      HeardAsked(log, c, Denied);
      PeerWritesWrites(kept, c);
    }
    WholeFilled(kept, q.deferred);
  }

  lemma PeerWritesWrites(kept: seq<Message>, c: string)
    requires PeerWrites(kept, c)
    ensures Writes(kept, c)
  {
    var m :| m in kept && m.conversation == c && m.kind == Peer;
  }

  // ---------------------------------------------------------------------
  // Which answer does what
  // ---------------------------------------------------------------------

  /** The state just before planning ended. */
  lemma BeforeTheEnd(ss: seq<Loop>, acts: seq<Action>, k: nat, j: nat)
    requires TickRuns(ss, acts, k, j) && !HasTick(ss[j].phase) && (acts[k].batch.kept != [] || ss[j].phase.CoverTurn?)
    ensures Tidy(ss[j - 1].stash) && !ss[j - 1].inFlight && !ss[j - 1].stopped
    ensures ss[j - 1].ledger.dead == ss[k].ledger.dead
  {
    hide Enabled, Next, Act, PollStep, TidyStash, Sorted, FinishPlan;
    RunShape(ss, acts, j - 1);
    RunPlanOver(ss, acts, k, j);
  }

  /** Each conversation in which a peer wrote a kept message is asked for exactly once in the tick, no other one is, and so
      each has one answer. */
  lemma AskedExactlyOnce(ss: seq<Loop>, acts: seq<Action>, k: nat, j: nat, c: string)
    requires TickRuns(ss, acts, k, j) && !HasTick(ss[j].phase) && acts[k].batch.kept != []
    ensures NoDup(Asked(Replies(ss, acts, k, j)))
    ensures c in Asked(Replies(ss, acts, k, j)) <==> exists m :: m in acts[k].batch.kept && m.conversation == c && m.kind == Peer
  {
    hide Enabled, Next, Act, PollStep, FinishPlan, LastPlan, Heard, AllWhole, Apart, Accounted, Untouched, TickOf;
    RunPlanOver(ss, acts, k, j);
    assert PeerWrites(acts[k].batch.kept, c) <==> exists m :: m in acts[k].batch.kept && m.conversation == c && m.kind == Peer;
  }

  lemma PlanDecides(kept: seq<Message>, q: Plan, log: seq<Reply>, m: Message)
    requires Sorted(kept, q, log) && q.waiting == [] && m in kept
    ensures m in q.floored <==> Reply(m.conversation, Denied) !in log
    ensures Reply(m.conversation, Denied) in log ==>
      exists i :: 0 <= i < |q.deferred| && q.deferred[i].conversation == m.conversation && KeyOf(m) in KeysOf(q.deferred[i].messages)
  {
    hide Heard, Apart, AskedRightly;
    HeardIff(log, m.conversation, Denied);
    assert m in q.floored <==> Cleared(kept, q, log, m);
    if Reply(m.conversation, Denied) in log {
      var i :| 0 <= i < |q.deferred| && Names(q.deferred)[i] == m.conversation;
      assert Whole(kept, q.deferred[i]);
      WholeHas(kept, q.deferred[i]);
      var n :| 0 <= n < |q.deferred[i].messages| && q.deferred[i].messages[n] == m;
      assert KeysOf(q.deferred[i].messages)[n] == KeyOf(m);
    }
  }

  lemma BoardedDecides(kept: seq<Message>, q: Plan, log: seq<Reply>, s0: Loop, b: Batch, vs: Verdicts, r: Loop, m: Message)
    requires Sorted(kept, q, log) && q.waiting == [] && m in kept && Boarded(s0, b, vs, q, r)
    ensures Reply(m.conversation, Denied) !in log ==> m in r.phase.floored && KeyOf(m) in KeysOf(r.phase.cargo.messages)
    ensures Reply(m.conversation, Denied) in log ==> m !in r.phase.floored && m.conversation !in r.phase.covered
  {
    hide Cover, CoveredBy, Heard, Apart, AskedRightly, AllWhole;
    PlanDecides(kept, q, log, m);
    if Reply(m.conversation, Denied) !in log {
      CargoHas(r.stash, q.floored, vs, b.generation, m);
    } else {
      forall i | 0 <= i < |q.floored| ensures ConversationsOf(q.floored)[i] != m.conversation {
        assert q.floored[i] in q.floored;
        assert Cleared(kept, q, log, q.floored[i]);
        PlanDecides(kept, q, log, q.floored[i]);
      }
    }
  }

  /** A message kept by a batch is aboard the turn its tick ends in unless its conversation was denied the floor; then it is
      not, and it is held back. */
  ghost predicate Decided(before: Loop, r: Loop, m: Message, denied: bool) {
    if denied then
      && (r.phase.CoverTurn? ==> m !in r.phase.floored && m.conversation !in r.phase.covered)
      && HeldBack(before, r, m.conversation, KeyOf(m))
    else r.phase.CoverTurn? && m in r.phase.floored && KeyOf(m) in KeysOf(r.phase.cargo.messages)
  }

  lemma FinishDecides(b: Batch, s0: Loop, s: Loop, a: Action, q: Plan, log: seq<Reply>, r: Loop, m: Message)
    requires |b.results| == |b.messages| && PlanOver(b, s0, s, a, q, log, r) && Tidy(s.stash) && !s.inFlight && m in b.kept
    ensures Decided(s0, r, m, Reply(m.conversation, Denied) in log)
  {
    hide FinishPlan, Sorted, TidyStash, Kept, Boarded, TickOf;
    DeferredFilled(b.kept, q, log);
    PlanDecides(b.kept, q, log, m);
    if q.floored != [] {
      FinishBoards(b, s0, s, q, a.now);
      BoardedDecides(b.kept, q, log, s0, b, TickOf(b).verdicts, r, m);
      BoardsCover(s0, b, TickOf(b).verdicts, q, r);
    } else {
      FinishServes(s, TickOf(b), q, a.now);
    }
    if Reply(m.conversation, Denied) in log {
      var i :| 0 <= i < |q.deferred| && q.deferred[i].conversation == m.conversation && KeyOf(m) in KeysOf(q.deferred[i].messages);
      FinishHoldsBack(s, TickOf(b), q, a.now, i, KeyOf(m));
    }
  }

  lemma BoardsCover(s0: Loop, b: Batch, vs: Verdicts, q: Plan, r: Loop)
    requires Boarded(s0, b, vs, q, r)
    ensures r.phase.CoverTurn?
  {
  }

  lemma FinishServes(s: Loop, t: Tick, q: Plan, now: int)
    requires s.stash.Valid() && !s.stopped && q.floored == []
    ensures !FinishPlan(s, t, q, now).phase.CoverTurn?
  {
    hide StashGroups, Cover, CoveredBy;
    var d := StashGroups(s, q.deferred, t, now).(unhanded := []);
    if ExpiredOrder(d.stash, now) != [] { assert ExpiredOrder(d.stash, now)[0] in ExpiredOrder(d.stash, now); }
  }

  /** In every run of an unstopped loop whose logger does not throw, the answers to the floor requests decide who gets the
      turn: a kept message is aboard the turn its tick ends in unless the floor was denied to its conversation in that
      tick, and then it is held back or on record. */
  lemma OnlyDenialHoldsBack(ss: seq<Loop>, acts: seq<Action>, k: nat, j: nat, m: Message)
    requires TickRuns(ss, acts, k, j) && !HasTick(ss[j].phase) && m in acts[k].batch.kept
    ensures Decided(ss[k], ss[j], m, Reply(m.conversation, Denied) in Replies(ss, acts, k, j))
  {
    hide Enabled, Next, Act, PollStep, PlanOver, LastPlan, Decided, TidyStash;
    RunPlanOver(ss, acts, k, j);
    BeforeTheEnd(ss, acts, k, j);
    FinishDecides(acts[k].batch, ss[k], ss[j - 1], acts[j - 1], LastPlan(ss[j - 1], acts[j - 1]), Replies(ss, acts, k, j), ss[j], m);
  }

  lemma FinishCarries(b: Batch, s0: Loop, s: Loop, a: Action, q: Plan, log: seq<Reply>, r: Loop)
    requires |b.results| == |b.messages| && PlanOver(b, s0, s, a, q, log, r) && Tidy(s.stash)
    ensures r.phase.CoverTurn? ==> Boarded(s0, b, TickOf(b).verdicts, q, r) && q.toRelease == Heard(log, Granted)
  {
    hide FinishPlan, TidyStash, Boarded, TickOf;
    DeferredFilled(b.kept, q, log);
    if q.floored != [] { FinishBoards(b, s0, s, q, a.now); } else { FinishServes(s, TickOf(b), q, a.now); }
  }

  lemma RunBoarded(ss: seq<Loop>, acts: seq<Action>, k: nat, j: nat)
    requires TickRuns(ss, acts, k, j) && ss[j].phase.CoverTurn?
    ensures |acts[k].batch.results| == |acts[k].batch.messages| && ValidBatch(acts[k].batch)
    ensures ss[j - 1].phase.Acking? || (ss[j - 1].phase.Planning? && ss[j - 1].phase.plan.waiting != [] && acts[j - 1].FloorAnswers?)
    ensures
      var b, q, log := acts[k].batch, LastPlan(ss[j - 1], acts[j - 1]), Replies(ss, acts, k, j);
      Boarded(ss[k], b, TickOf(b).verdicts, q, ss[j]) && q.toRelease == Heard(log, Granted) && q.waiting == []
      && Sorted(b.kept, q, log) && Laid(b.kept, Appearing(b.kept), q, log)
  {
    hide Enabled, Next, Act, PollStep, FinishPlan, LastPlan, Boarded, TidyStash, Sorted;
    PollStarts(ss, acts, k);
    RunPlanOver(ss, acts, k, j);
    BeforeTheEnd(ss, acts, k, j);
    FinishCarries(acts[k].batch, ss[k], ss[j - 1], acts[j - 1], LastPlan(ss[j - 1], acts[j - 1]), Replies(ss, acts, k, j), ss[j]);
  }

  /** The floors a covering turn holds are those granted in its tick, in the order granted. */
  lemma TurnHoldsGrantedFloors(ss: seq<Loop>, acts: seq<Action>, k: nat, j: nat)
    requires TickRuns(ss, acts, k, j) && ss[j].phase.CoverTurn?
    ensures ss[j].phase.floors == Heard(Replies(ss, acts, k, j), Granted)
  {
    hide Enabled, Next, Act, PollStep, LastPlan, Sorted, Cover, CoveredBy;
    RunBoarded(ss, acts, k, j);
  }

  /** A covering turn's fresh messages are its batch's kept messages, conversation by conversation in the order in which they
      first appear, each in order, without the conversations denied the floor. */
  lemma TurnIsInOrder(ss: seq<Loop>, acts: seq<Action>, k: nat, j: nat)
    requires TickRuns(ss, acts, k, j) && ss[j].phase.CoverTurn?
    ensures ss[j].phase.floored == FlatOf(acts[k].batch.kept, Appearing(acts[k].batch.kept), Heard(Replies(ss, acts, k, j), Denied))
  {
    hide Enabled, Next, Act, PollStep, LastPlan, Sorted, Cover, CoveredBy, FlatOf, Heard, TickOf;
    RunBoarded(ss, acts, k, j);
    var kept, q := acts[k].batch.kept, LastPlan(ss[j - 1], acts[j - 1]);
    assert Appearing(kept)[..|Appearing(kept)|] == Appearing(kept);
  }

  /** A fresh message of a covering turn is one its tick kept, and the turn shows it with exactly what that poll said of it,
      be it a pass, a failure or nothing. */
  lemma TurnShowsThePoll(ss: seq<Loop>, acts: seq<Action>, k: nat, j: nat, m: Message)
    requires TickRuns(ss, acts, k, j) && ss[j].phase.CoverTurn? && m in ss[j].phase.floored
    ensures m in acts[k].batch.kept && |acts[k].batch.results| == |acts[k].batch.messages|
    ensures ss[j].turns == ss[k].turns + [Turn(ss[j].phase.cargo.labels, acts[k].batch.generation)]
    ensures Says(acts[k].batch, m, VerdictFor(ss[j].phase.cargo.labels, m))
  {
    hide Enabled, Next, Act, PollStep, LastPlan, Cover, CoveredBy, Heard, AllWhole, Apart, AskedRightly, TickOf, Says;
    var b := acts[k].batch;
    RunBoarded(ss, acts, k, j);
    var q := LastPlan(ss[j - 1], acts[j - 1]);
    assert Cleared(b.kept, q, Replies(ss, acts, k, j), m);
    TickSays(b, m);
    FreshLabelIsTheTicks(ss[j].stash, q.floored, TickOf(b).verdicts, b.generation, m);
  }

  /** A held-back message that a covering turn takes along, and its batch does not redeliver, is shown with exactly the
      verdict stored beside it, a pass of another generation being none. */
  lemma TurnShowsTheStored(ss: seq<Loop>, acts: seq<Action>, k: nat, j: nat, i: nat)
    requires TickRuns(ss, acts, k, j) && ss[j].phase.CoverTurn? && forall c :: c in ss[j].phase.covered ==> c in ss[j].stash.at
    requires i < |HeldEntries(ss[j].stash.at, ss[j].phase.covered)|
    requires
      var es := HeldEntries(ss[j].stash.at, ss[j].phase.covered);
      && KeyOf(es[i].message) !in KeysOf(ss[j].phase.floored)
      && forall n :: 0 <= n < i ==> KeyOf(es[n].message) != KeyOf(es[i].message)
    ensures
      var e, labels := HeldEntries(ss[j].stash.at, ss[j].phase.covered)[i], ss[j].phase.cargo.labels;
      && KeyOf(e.message) in labels
      && labels[KeyOf(e.message)]
         == if e.verdict.Some? && e.verdict.value.verified && e.generation != Some(acts[k].batch.generation) then None else e.verdict
  {
    hide Enabled, Next, Act, PollStep, LastPlan, Cover, CoveredBy, Sorted, TickOf;
    RunBoarded(ss, acts, k, j);
    var b, q := acts[k].batch, LastPlan(ss[j - 1], acts[j - 1]);
    HeldLabelIsTheStored(ss[j].stash, q.floored, TickOf(b).verdicts, b.generation, i);
  }

  /** A batch whose messages are being planned was acked first thing, and exactly its kept messages were admitted with it. */
  lemma AdmittedIsKept(ss: seq<Loop>, acts: seq<Action>, k: nat, j: nat)
    requires TickRuns(ss, acts, k, j) && (ss[j].phase.Acking? || ss[j].phase.Planning?)
    ensures ss[j].ledger.admitted == ss[k].ledger.admitted + multiset(KeysOf(acts[k].batch.kept))
    ensures |ss[j].effects| > |ss[k].effects| && ss[j].effects[|ss[k].effects|] == AckStarted
  {
    hide Enabled, Next, Act, PollStep, Planned;
    RunUnderway(ss, acts, k, j);
  }

  lemma ServedEffects(s: Loop, now: int)
    requires s.stash.Valid() && !s.stopped
    ensures AckStarted !in ServiceDeferred(s, now).effects[|s.effects|..]
    ensures |s.effects| <= |ServiceDeferred(s, now).effects|
  {
    if ExpiredOrder(s.stash, now) != [] { assert ExpiredOrder(s.stash, now)[0] in ExpiredOrder(s.stash, now); }
  }

  lemma PollAcks(s: Loop, b: Batch, now: int)
    requires s.stash.Valid() && ValidBatch(b) && !s.stopped
    ensures
      var r := PollStep(s, b, now);
      && |s.effects| <= |r.effects|
      && (AckStarted in r.effects[|s.effects|..] <==> b.messages != [] && (!b.anyReal || b.notices == 0))
      && (b.messages != [] && b.anyReal && b.notices > 0 <==> r.phase.Noticing?)
  {
    hide ServiceDeferred, TickOf;
    var t := s.(generation := b.generation);
    ServedEffects(t, now);
    ServedNoTick(t, now);
  }

  /** The answer to a poll of a loop not stopped is acked at once if and only if it has messages and, when any of them is real,
      raises no stall notice to be sent first; with notices, sending them comes first, and their tick acks it. */
  lemma AckedIffAnyMessage(ss: seq<Loop>, acts: seq<Action>, k: nat)
    requires IsRun(ss, acts) && k < |acts| && acts[k].PollReturns? && !ss[k].stopped
    ensures
      var b := acts[k].batch;
      && |ss[k].effects| <= |ss[k + 1].effects|
      && (AckStarted in ss[k + 1].effects[|ss[k].effects|..] <==> b.messages != [] && (!b.anyReal || b.notices == 0))
      && (b.messages != [] && b.anyReal && b.notices > 0 <==> ss[k + 1].phase.Noticing?)
  {
    hide Enabled, Next, PollStep;
    PollStarts(ss, acts, k);
    PollAcks(ss[k], acts[k].batch, acts[k].now);
  }
}
