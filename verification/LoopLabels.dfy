/** No turn ever renders a message as verified unless that very material passed verification under the
    trust generation in force when the turn was spawned, however ids are reused within or across batches. */
module LoopLabels {
  import opened OrderedMaps
  import opened Messages
  import opened Stashing
  import opened Covering
  import opened ReplyLoop
  import opened LoopShape

  // ---------------------------------------------------------------------
  // The invariant
  // ---------------------------------------------------------------------

  ghost function NewlyComputed(b: Batch): set<Computed>
    requires |b.results| == |b.messages|
  {
    ComputedIn(b.generation, b.messages, b.results)
  }

  ghost predicate Backed(known: set<Computed>, gen: Generation, k: HeldKey, v: Option<Verdict>) {
    Passing(v) ==> Computed(gen, k, v.value) in known
  }

  ghost predicate BackedLabels(known: set<Computed>, gen: Generation, labels: Verdicts) {
    forall k :: k in labels ==> Backed(known, gen, k, labels[k])
  }

  /** A stored pass was computed on this entry's own material, under the generation stored beside it. */
  ghost predicate HonestEntry(known: set<Computed>, e: StashEntry) {
    Passing(e.verdict) ==> e.generation.Some? && Computed(e.generation.value, KeyOf(e.message), e.verdict.value) in known
  }

  ghost predicate HonestEntries(known: set<Computed>, es: seq<StashEntry>) {
    forall e :: e in es ==> HonestEntry(known, e)
  }

  ghost predicate HonestStash(known: set<Computed>, d: Stashes) {
    forall c :: c in d.at ==> HonestEntries(known, d.at[c].entries)
  }

  ghost predicate HonestTurns(known: set<Computed>, turns: seq<Turn>) {
    forall i :: 0 <= i < |turns| ==> BackedLabels(known, turns[i].generation, turns[i].labels)
  }

  ghost predicate HonestCore(known: set<Computed>, s: Loop) {
    s.stash.Valid() && HonestStash(known, s.stash) && HonestTurns(known, s.turns)
  }

  ghost predicate Honest(known: set<Computed>, s: Loop) {
    HonestCore(known, s) && (HasTick(s.phase) ==> BackedLabels(known, s.generation, s.phase.tick.verdicts))
  }

  // ---------------------------------------------------------------------
  // Verdicts come from verification
  // ---------------------------------------------------------------------

  lemma TickIsBacked(b: Batch)
    requires ValidBatch(b)
    ensures BackedLabels(NewlyComputed(b), b.generation, TickOf(b).verdicts)
  {
    forall k | k in TickOf(b).verdicts ensures Backed(NewlyComputed(b), b.generation, k, TickOf(b).verdicts[k]) {
      if Passing(TickOf(b).verdicts[k]) { PassIsComputed(b.generation, b.messages, b.results, b.rejected, k); }
    }
  }

  // ---------------------------------------------------------------------
  // Labels of turns
  // ---------------------------------------------------------------------

  lemma EntryLabel(known: set<Computed>, gen: Generation, e: StashEntry)
    requires HonestEntry(known, e)
    ensures Backed(known, gen, KeyOf(e.message), EntryVerdict(e, gen))
  {
  }

  lemma {:induction false} StashLabelsBacked(known: set<Computed>, gen: Generation, es: seq<StashEntry>)
    requires HonestEntries(known, es)
    ensures BackedLabels(known, gen, StashLabels(es, gen))
  {
    if es != [] {
      var n := |es| - 1;
      StashLabelsBacked(known, gen, es[..n]);
      assert es[n] in es;
      EntryLabel(known, gen, es[n]);
    }
  }

  lemma {:induction false} HeldAreHonest(known: set<Computed>, at: map<string, Stash>, cs: seq<string>)
    requires forall c :: c in cs ==> c in at && HonestEntries(known, at[c].entries)
    ensures HonestEntries(known, HeldEntries(at, cs))
  {
    if cs != [] { HeldAreHonest(known, at, cs[..|cs| - 1]); }
  }

  lemma CoverLabelsBacked(known: set<Computed>, d: Stashes, floored: seq<Message>, vs: Verdicts, gen: Generation)
    requires HonestStash(known, d) && BackedLabels(known, gen, vs)
    ensures BackedLabels(known, gen, Cover(d, floored, vs, gen).labels)
  {
    var r, cs := Cover(d, floored, vs, gen), CoveredBy(d, floored);
    HeldAreHonest(known, d.at, cs);
    forall k | k in r.labels ensures Backed(known, gen, k, r.labels[k]) {
      CoverLabels(d, floored, vs, gen, k);
      if !TickLabel(vs, k, r.labels[k]) {
        var e :| e in HeldEntries(d.at, cs) && KeyOf(e.message) == k && r.labels[k] == EntryVerdict(e, gen);
        EntryLabel(known, gen, e);
      }
    }
  }

  lemma StashingIsHonest(known: set<Computed>, d: Stashes, c: string, msgs: seq<Message>, vs: Verdicts, now: int, gen: Generation)
    requires d.Valid() && HonestStash(known, d) && BackedLabels(known, gen, vs)
    ensures HonestStash(known, StashAfter(d, c, msgs, vs, now, Some(gen)))
  {
    var r := StashAfter(d, c, msgs, vs, now, Some(gen));
    forall x, e | x in r.at && e in r.at[x].entries ensures HonestEntry(known, e) {
      StashedVerdicts(d, c, msgs, vs, now, Some(gen), x, e);
      if x == c && Inherited(e, EntriesOf(d, c), vs, Some(gen)) {
        InheritedIsHonest(known, e, EntriesOf(d, c), vs, gen);
      }
    }
  }

  lemma InheritedIsHonest(known: set<Computed>, e: StashEntry, es: seq<StashEntry>, vs: Verdicts, gen: Generation)
    requires HonestEntries(known, es) && BackedLabels(known, gen, vs) && Inherited(e, es, vs, Some(gen))
    ensures HonestEntry(known, e)
  {
  }

  // ---------------------------------------------------------------------
  // Every step
  // ---------------------------------------------------------------------

  lemma FlushHonest(known: set<Computed>, s: Loop)
    requires HonestCore(known, s)
    ensures HonestCore(known, FlushOnStop(s))
  {
  }

  lemma EndTickHonest(known: set<Computed>, s: Loop)
    requires HonestCore(known, s)
    ensures Honest(known, EndTick(s))
  {
    FlushHonest(known, s.(phase := Idle, unhanded := [], covering := []));
  }

  lemma WalkHonest(known: set<Computed>, s: Loop, cs: seq<string>, now: int)
    requires HonestCore(known, s)
    ensures Honest(known, WalkRetries(s, cs, now))
  {
    EndTickHonest(known, s);
  }

  lemma SpawnHonest(known: set<Computed>, s: Loop, c: string, next: Stash -> Phase)
    requires HonestCore(known, s) && c in s.stash.at && !HasTick(next(s.stash.at[c]))
    ensures Honest(known, SpawnHeldBack(s, c, next))
  {
    StashLabelsBacked(known, s.generation, s.stash.at[c].entries);
  }

  lemma ServiceHonest(known: set<Computed>, s: Loop, now: int)
    requires HonestCore(known, s)
    ensures Honest(known, ServiceDeferred(s, now))
  {
    if s.inFlight {
      EndTickHonest(known, s);
    } else if ExpiredOrder(s.stash, now) != [] {
      var c := ExpiredOrder(s.stash, now)[0];
      assert c in ExpiredOrder(s.stash, now);
      SpawnHonest(known, s, c, late => OverrunTurn(late, now));
    } else {
      WalkHonest(known, s, RetryOrder(s.stash, now), now);
    }
  }

  lemma {:induction false} StashGroupsHonest(known: set<Computed>, s: Loop, gs: seq<Group>, t: Tick, now: int)
    requires HonestCore(known, s) && BackedLabels(known, s.generation, t.verdicts)
    ensures HonestCore(known, StashGroups(s, gs, t, now))
    ensures StashGroups(s, gs, t, now).generation == s.generation
  {
    if gs != [] {
      var n := |gs| - 1;
      StashGroupsHonest(known, s, gs[..n], t, now);
      StashingIsHonest(known, StashGroups(s, gs[..n], t, now).stash, gs[n].conversation, gs[n].messages, t.verdicts, now, s.generation);
    }
  }

  lemma BoardHonest(known: set<Computed>, s: Loop, p: Plan, t: Tick)
    requires HonestCore(known, s) && BackedLabels(known, s.generation, t.verdicts)
    ensures Honest(known, SpawnCovering(s, p, t))
  {
    CoverLabelsBacked(known, s.stash, p.floored, t.verdicts, s.generation);
  }

  lemma HandBackHonest(known: set<Computed>, s: Loop, floors: seq<string>)
    requires HonestCore(known, s)
    ensures Honest(known, ReleaseThenEnd(s, floors))
  {
    EndTickHonest(known, s);
  }

  lemma FinishHonest(known: set<Computed>, s: Loop, t: Tick, p: Plan, now: int)
    requires HonestCore(known, s) && BackedLabels(known, s.generation, t.verdicts)
    ensures Honest(known, FinishPlan(s, t, p, now))
  {
    if s.stopped {
      HandBackHonest(known, s, p.toRelease);
    } else {
      StashGroupsHonest(known, s, p.deferred, t, now);
      var r := StashGroups(s, p.deferred, t, now).(unhanded := []);
      if p.floored == [] { ServiceHonest(known, r, now); } else { BoardHonest(known, r, p, t); }
    }
  }

  lemma ContinueHonest(known: set<Computed>, s: Loop, t: Tick, p: Plan, now: int)
    requires HonestCore(known, s) && BackedLabels(known, s.generation, t.verdicts)
    ensures Honest(known, ContinuePlan(s, t, p, now))
  {
    var q := SkipOperatorOnly(p);
    if q.waiting == [] { FinishHonest(known, s, t, q, now); }
  }

  lemma Monotone(known: set<Computed>, more: set<Computed>, s: Loop)
    requires Honest(known, s)
    ensures Honest(known + more, s)
  {
  }

  lemma AfterPollHonest(known: set<Computed>, s: Loop, b: Batch, t: Tick, now: int)
    requires HonestCore(known, s) && BackedLabels(known, s.generation, t.verdicts)
    ensures Honest(known, AfterPoll(s, b, t, now))
  {
    if !b.anyReal && b.messages == [] { ServiceHonest(known, s, now); }
  }

  /** A poll's own verdicts join what is known; every later label still needs the generation to match. */
  lemma PollHonest(known: set<Computed>, s: Loop, b: Batch, now: int)
    requires Honest(known, s) && ValidBatch(b)
    ensures Honest(known + NewlyComputed(b), PollStep(s, b, now))
  {
    var more := known + NewlyComputed(b);
    Monotone(known, NewlyComputed(b), s);
    if s.stopped {
      EndTickHonest(more, s);
    } else {
      TickIsBacked(b);
      AfterPollHonest(more, s.(generation := b.generation), b, TickOf(b), now);
    }
  }

  lemma AckStepHonest(known: set<Computed>, s: Loop, now: int)
    requires Honest(known, s) && (s.phase.QuietAck? || s.phase.Acking?)
    ensures Honest(known, AckStep(s, now))
  {
    if s.stopped {
      EndTickHonest(known, s);
    } else if s.phase.QuietAck? || s.phase.tick.kept == [] {
      ServiceHonest(known, s, now);
    } else {
      ContinueHonest(known, s, s.phase.tick, Plan(GroupsOf(s.phase.tick.kept), [], [], []), now);
    }
  }

  lemma RetryStepHonest(known: set<Computed>, s: Loop, answer: FloorAnswer)
    requires Honest(known, s) && s.phase.RetryAsk?
    ensures Honest(known, RetryStep(s, answer))
  {
    EndTickHonest(known, s);
    WalkHonest(known, s, s.phase.rest, s.phase.at);
    if s.phase.conversation in s.stash.at { SpawnHonest(known, s, s.phase.conversation, late => RetryTurn(s.phase.conversation, late)); }
  }

  lemma AfterCoverHonest(known: set<Computed>, s: Loop, floors: seq<string>, now: int)
    requires HonestCore(known, s)
    ensures Honest(known, AfterCoverTurn(s, floors, now))
  {
    if floors == [] {
      if s.stopped { EndTickHonest(known, s); } else { ServiceHonest(known, s, now); }
    }
  }

  lemma CoverEndHonest(known: set<Computed>, s: Loop, started: bool)
    requires HonestCore(known, s) && s.phase.CoverTurn?
    ensures HonestCore(known, if started then CoverStarted(s) else CoverFailed(s))
  {
    FlushHonest(known, CoverLost(s));
  }

  lemma SpawnStepHonest(known: set<Computed>, s: Loop, started: bool, now: int)
    requires Honest(known, s) && Spawning(s.phase)
    ensures Honest(known, SpawnStep(s, started, now))
  {
    match s.phase
    case CoverTurn(floors, _, _, _) =>
      CoverEndHonest(known, s, started);
      AfterCoverHonest(known, if started then CoverStarted(s) else CoverFailed(s), floors, now);
    case OverrunTurn(late, at) =>
      var t := HeldBackEnded(s, late, started);
      if started { EndTickHonest(known, t); } else { WalkHonest(known, t, RetryOrder(t.stash, at), at); }
    case RetryTurn(c, late) =>
  }

  lemma ReleaseStepHonest(known: set<Computed>, s: Loop, now: int)
    requires Honest(known, s) && (s.phase.HandingBack? || s.phase.Releasing? || s.phase.RetryRelease?)
    ensures Honest(known, ReleaseStep(s, now))
  {
    match s.phase
    case HandingBack(_, others) => HandBackHonest(known, s, others);
    case Releasing(_, others) => AfterCoverHonest(known, s, others, now);
    case RetryRelease(_, rest, more, at) => if more { WalkHonest(known, s, rest, at); } else { EndTickHonest(known, s); }
  }

  /** The poll an action is the answer of, or in whose processing the logger threw. */
  function PollOf(a: Action): Option<Batch> {
    if a.PollReturns? then Some(a.batch)
    else if a.TickThrows? && a.during.PollReturns? then Some(a.during.batch) else None
  }

  ghost function Learnt(a: Action): set<Computed> {
    var b := PollOf(a);
    if b.Some? && |b.value.results| == |b.value.messages| then NewlyComputed(b.value) else {}
  }

  lemma ActHonest(known: set<Computed>, s: Loop, a: Action)
    requires Honest(known, s) && Ready(s, a)
    ensures Honest(known + Learnt(a), Act(s, a))
  {
    if a.PollReturns? {
      PollHonest(known, s, a.batch, a.now);
    } else {
      assert known + Learnt(a) == known;
      OtherHonest(known, s, a);
    }
  }

  lemma AbandonHonest(known: set<Computed>, s: Loop, ks: Keys)
    requires HonestCore(known, s)
    ensures Honest(known, Abandon(s, ks))
  {
    EndTickHonest(known, s.(inFlight := false, ledger := s.ledger.(lost := s.ledger.lost + ks)));
  }

  lemma ReportingHonest(known: set<Computed>, s: Loop, a: Action)
    requires Honest(known, s) && Ready(s, a) && Reports(s, a)
    ensures Honest(known, ThrownReporting(s, a))
  {
    match a
    case PollReturns(b, _) => EndTickHonest(known, if s.stopped then s else s.(generation := b.generation));
    case SpawnDecided(_, _) =>
      if s.phase.CoverTurn? {
        CoverEndHonest(known, s, false);
        EndTickHonest(known, CoverFailed(s));
      } else {
        AbandonHonest(known, s.(effects := s.effects + [TurnEnded]), Aboard(s.phase));
      }
    case _ => AbandonHonest(known, s, multiset(KeysOf(s.unhanded)));
  }

  lemma StashUpToHonest(known: set<Computed>, s: Loop, gs: seq<Group>, g: nat, d: nat, t: Tick, now: int)
    requires HonestCore(known, s) && BackedLabels(known, s.generation, t.verdicts)
    requires g < |gs| && d <= |GroupDrops(s, gs, g, t, now)|
    ensures HonestCore(known, StashUpTo(s, gs, g, d, t, now))
  {
    var before := StashGroups(s, gs[..g], t, now);
    StashGroupsHonest(known, s, gs[..g], t, now);
    StashingIsHonest(known, before.stash, gs[g].conversation, gs[g].messages, t.verdicts, now, s.generation);
  }

  lemma ThrownHonest(known: set<Computed>, s: Loop, a: Action, site: Site)
    requires Honest(known, s) && CanThrow(s, a, site)
    ensures Honest(known + Learnt(a), Thrown(s, a, site))
  {
    var more := known + Learnt(a);
    Monotone(known, Learnt(a), s);
    match site
    case Reporting => ReportingHonest(more, s, a);
    case Recorded => EndTickHonest(more, HeldBackEnded(s, s.phase.late, false));
    case Announcing =>
      ActHonest(known, s, a);
      var r := Act(s, a);
      AbandonHonest(more, r.(effects := r.effects[..|r.effects| - 1], turns := s.turns), Aboard(r.phase));
    case Dropping(g, d) =>
      var q, t := FinalPlan(s, a), s.phase.tick;
      StashUpToHonest(more, s, q.deferred, g, d, t, a.now);
      AbandonHonest(more, StashUpTo(s, q.deferred, g, d, t, a.now),
                    DroppedKeys(GroupDrops(s, q.deferred, g, t, a.now)[d..]) + GroupKeys(q.deferred[g + 1..]) + multiset(KeysOf(q.floored)));
  }

  lemma NextHonest(known: set<Computed>, s: Loop, a: Action)
    requires Honest(known, s) && Enabled(s, a)
    ensures Honest(known + Learnt(a), Next(s, a))
  {
    if a.TickThrows? {
      assert Learnt(a) == Learnt(a.during) by { assert !a.during.TickThrows?; }
      ThrownHonest(known, s, a.during, a.site);
    } else {
      ActHonest(known, s, a);
    }
  }

  lemma OtherHonest(known: set<Computed>, s: Loop, a: Action)
    requires Honest(known, s) && Ready(s, a) && !a.PollReturns?
    ensures Honest(known, Act(s, a))
  {
    match a
    case TickFires =>
    case PollFails => EndTickHonest(known, s);
    case AckReturns(now) => AckStepHonest(known, s, now);
    case NoticeReturns => EndTickHonest(known, s);
    case FloorAnswers(answer, now) =>
      if s.phase.Planning? {
        ContinueHonest(known, s, s.phase.tick, Answered(s.phase.plan, answer), now);
      } else {
        RetryStepHonest(known, s, answer);
      }
    case SpawnDecided(started, now) => SpawnStepHonest(known, s, started, now);
    case ReleaseReturns(now) => ReleaseStepHonest(known, s, now);
    case Stop => FlushHonest(known, s.(stopped := true));
  }

  // ---------------------------------------------------------------------
  // Over whole runs
  // ---------------------------------------------------------------------

  ghost function Known(acts: seq<Action>): set<Computed> {
    if acts == [] then {} else Known(acts[..|acts| - 1]) + Learnt(acts[|acts| - 1])
  }

  lemma {:induction false} RunHonest(ss: seq<Loop>, acts: seq<Action>, i: nat)
    requires IsRun(ss, acts) && i <= |acts|
    ensures Honest(Known(acts[..i]), ss[i])
  {
    hide Next, Enabled;
    if i > 0 {
      RunHonest(ss, acts, i - 1);
      RunStep(ss, acts, i - 1);
      NextHonest(Known(acts[..i - 1]), ss[i - 1], acts[i - 1]);
      assert acts[..i][..i - 1] == acts[..i - 1];
    }
  }

  /** Poll `j` verified a message with `k`'s exact material, under `gen`, and answered `v`. */
  ghost predicate VerifiedAt(acts: seq<Action>, j: nat, gen: Generation, k: HeldKey, v: Verdict) {
    && j < |acts| && PollOf(acts[j]).Some?
    && var b := PollOf(acts[j]).value;
       b.generation == gen && |b.results| == |b.messages|
       && exists n :: 0 <= n < |b.messages| && KeyOf(b.messages[n]) == k && b.results[n] == Some(v)
  }

  lemma {:induction false} KnownFromPolls(acts: seq<Action>, x: Computed)
    requires x in Known(acts)
    ensures exists j :: VerifiedAt(acts, j, x.generation, x.key, x.verdict)
  {
    var n := |acts| - 1;
    if x in Known(acts[..n]) {
      KnownFromPolls(acts[..n], x);
      var j :| VerifiedAt(acts[..n], j, x.generation, x.key, x.verdict);
      assert VerifiedAt(acts, j, x.generation, x.key, x.verdict);
    } else {
      assert VerifiedAt(acts, n, x.generation, x.key, x.verdict);
    }
  }

  /** In every run, a message rendered with a passing verdict had that verdict computed, at an earlier poll,
      on identical material and under the generation current when its turn was spawned. */
  lemma PassingLabelsAreEarned(ss: seq<Loop>, acts: seq<Action>, i: nat, t: nat, k: HeldKey)
    requires IsRun(ss, acts) && i <= |acts| && t < |ss[i].turns|
    requires k in ss[i].turns[t].labels && Passing(ss[i].turns[t].labels[k])
    ensures exists j :: VerifiedAt(acts[..i], j, ss[i].turns[t].generation, k, ss[i].turns[t].labels[k].value)
  {
    RunHonest(ss, acts, i);
    var turn := ss[i].turns[t];
    assert Backed(Known(acts[..i]), turn.generation, k, turn.labels[k]);
    KnownFromPolls(acts[..i], Computed(turn.generation, k, turn.labels[k].value));
  }

  /** Poll `j` verified this very message, under `gen`, and answered `v`. */
  ghost predicate MessageVerifiedAt(acts: seq<Action>, j: nat, gen: Generation, m: Message, v: Verdict) {
    && j < |acts| && PollOf(acts[j]).Some?
    && var b := PollOf(acts[j]).value;
       b.generation == gen && |b.results| == |b.messages|
       && exists n :: 0 <= n < |b.messages| && b.messages[n] == m && b.results[n] == Some(v)
  }

  /** So a comparable message that a turn renders as passing is itself one that an earlier poll verified, under the
      generation current at the spawn: no other message can wear its verdict. */
  lemma PassingMessageWasVerified(ss: seq<Loop>, acts: seq<Action>, i: nat, t: nat, m: Message)
    requires IsRun(ss, acts) && i <= |acts| && t < |ss[i].turns| && m.content.Json?
    requires KeyOf(m) in ss[i].turns[t].labels && Passing(ss[i].turns[t].labels[KeyOf(m)])
    ensures exists j :: MessageVerifiedAt(acts[..i], j, ss[i].turns[t].generation, m, ss[i].turns[t].labels[KeyOf(m)].value)
  {
    hide Next, Enabled;
    var gen, v := ss[i].turns[t].generation, ss[i].turns[t].labels[KeyOf(m)].value;
    PassingLabelsAreEarned(ss, acts, i, t, KeyOf(m));
    var j: nat :| VerifiedAt(acts[..i], j, gen, KeyOf(m), v);
    var b := PollOf(acts[..i][j]).value;
    var n :| 0 <= n < |b.messages| && KeyOf(b.messages[n]) == KeyOf(m) && b.results[n] == Some(v);
    KeyIdentifies(m, b.messages[n]);
    assert MessageVerifiedAt(acts[..i], j, gen, m, v);
  }
}
