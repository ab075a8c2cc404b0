/** Where every message the loop acked has gone.

    An admitted message is in the tick's hands, in the stash, aboard a turn whose spawn is undecided,
    in a started turn, on a dead-letter record, or was fresh in a turn that failed to start; or a logger
    that threw made the loop forget it. Copies of one identity may be folded together, but never to nothing. */
module LoopLedger {
  import opened OrderedMaps
  import opened Messages
  import opened Stashing
  import opened Covering
  import opened ReplyLoop
  import opened LoopShape

  // ---------------------------------------------------------------------
  // The books
  // ---------------------------------------------------------------------

  /** Held back, finally disposed of or forgotten. */
  ghost function Base(s: Loop): Keys
    requires s.stash.Valid()
  {
    Held(s.stash) + s.ledger.started + s.ledger.dead + s.ledger.failed + s.ledger.lost
  }

  ghost function Settled(s: Loop): Keys
    requires s.stash.Valid()
  {
    multiset(KeysOf(s.unhanded)) + Base(s)
  }

  ghost function Live(s: Loop): Keys
    requires s.stash.Valid()
  {
    Settled(s) + Aboard(s.phase)
  }

  /** Everything admitted is in `live` or was folded into an identical copy, and every identity is in `live`. */
  ghost predicate Booked(l: Ledger, live: Keys) {
    && l.admitted == live + l.merged
    && forall k :: k in l.admitted ==> k in live
  }

  /** A plan is a partition of the kept messages. */
  ghost predicate Partition(t: Tick, p: Plan) {
    multiset(KeysOf(t.kept)) == multiset(KeysOf(p.floored)) + GroupKeys(p.waiting) + GroupKeys(p.deferred)
  }

  /** What a covering turn carries, given what it took from the stash and the fresh messages. */
  ghost predicate Loaded(held: Keys, floored: Keys, carried: Keys, late: Keys) {
    && carried <= held + floored
    && carried - late <= floored
    && (forall k :: k in held <==> k in late)
    && (forall k :: k in carried <==> k in held || k in floored)
    && (forall k :: k in carried - late ==> k !in held)
  }

  ghost predicate CoverLoaded(d: Stashes, floored: seq<Message>, cargo: Cargo, covered: seq<string>) {
    && NoDup(covered) && (forall c :: c in covered ==> c in d.at)
    && Loaded(multiset(EntryKeys(HeldEntries(d.at, covered))), multiset(KeysOf(floored)),
              multiset(KeysOf(cargo.messages)), multiset(cargo.late))
  }

  ghost predicate Books(s: Loop) {
    && s.stash.Valid()
    && Booked(s.ledger, Live(s))
    && (s.phase.Planning? ==> Partition(s.phase.tick, s.phase.plan))
    && (s.phase.CoverTurn? ==> CoverLoaded(s.stash, s.phase.floored, s.phase.cargo, s.phase.covered))
  }

  // ---------------------------------------------------------------------
  // Ending a tick and the deferred turns
  // ---------------------------------------------------------------------

  lemma FlushBalance(hand: Keys, held: Keys, flushed: Keys, kept: Keys, rest: Keys, dead: Keys)
    requires held == kept + flushed
    ensures multiset{} + (kept + rest + (dead + (hand + flushed))) == hand + (held + rest + dead)
  {
  }

  lemma FlushBooks(s: Loop)
    requires Tidy(s.stash)
    ensures Settled(FlushOnStop(s)) == Settled(s) && FlushOnStop(s).ledger == s.ledger.(dead := FlushOnStop(s).ledger.dead)
  {
    hide TidyStash, ClearAll, HeldEntries, Uncovered;
    var flushed := Uncovered(s.stash.keys, s.covering);
    ClearTakesHeld(s.stash, flushed);
    var r := FlushOnStop(s);
    var l := s.ledger;
    FlushBalance(multiset(KeysOf(s.unhanded)), Held(s.stash), multiset(EntryKeys(HeldEntries(s.stash.at, flushed))),
                 Held(r.stash), l.started + l.failed + l.lost, l.dead);
    assert KeysOf([]) == [];
    assert Base(s) == Held(s.stash) + (l.started + l.failed + l.lost) + l.dead;
    assert Base(r) == Held(r.stash) + (l.started + l.failed + l.lost) + r.ledger.dead;
  }

  lemma EndTickBooks(s: Loop)
    requires Tidy(s.stash) && s.unhanded == [] && Booked(s.ledger, Settled(s))
    ensures Books(EndTick(s))
  {
    FlushBooks(s.(phase := Idle, unhanded := [], covering := []));
  }

  /** Moving on with nothing aboard. */
  lemma SameBooks(s: Loop, r: Loop)
    requires s.stash.Valid() && Booked(s.ledger, Settled(s))
    requires r.stash == s.stash && r.unhanded == s.unhanded && r.ledger == s.ledger
    requires Aboard(r.phase) == multiset{} && !r.phase.Planning? && !r.phase.CoverTurn?
    ensures Books(r)
  {
    assert Live(r) == Settled(s);
  }

  lemma WalkBooks(s: Loop, cs: seq<string>, now: int)
    requires Tidy(s.stash) && s.unhanded == [] && Booked(s.ledger, Settled(s))
    ensures Books(WalkRetries(s, cs, now))
  {
    if cs == [] { EndTickBooks(s); } else { SameBooks(s, WalkRetries(s, cs, now)); }
  }

  lemma TakeBalance(hand: Keys, held: Keys, taken: Keys, kept: Keys, a: Keys, b: Keys, c: Keys, d: Keys)
    requires held == kept + taken
    ensures hand + (kept + a + b + c + d) + taken == hand + (held + a + b + c + d)
  {
  }

  lemma SpawnBooks(s: Loop, c: string, next: Stash -> Phase)
    requires s.stash.Valid() && c in s.stash.at && Booked(s.ledger, Settled(s))
    requires next(s.stash.at[c]).OverrunTurn? || next(s.stash.at[c]).RetryTurn?
    requires Aboard(next(s.stash.at[c])) == multiset(EntryKeys(s.stash.at[c].entries))
    ensures Books(SpawnHeldBack(s, c, next))
  {
    HeldRemove(s.stash, c);
    TakeBalance(multiset(KeysOf(s.unhanded)), Held(s.stash), multiset(EntryKeys(s.stash.at[c].entries)),
                Held(s.stash.Remove(c)), s.ledger.started, s.ledger.dead, s.ledger.failed, s.ledger.lost);
  }

  lemma ServiceBooks(s: Loop, now: int)
    requires Tidy(s.stash) && s.unhanded == [] && Booked(s.ledger, Settled(s))
    ensures Books(ServiceDeferred(s, now))
  {
    if s.inFlight {
      EndTickBooks(s);
    } else if ExpiredOrder(s.stash, now) != [] {
      var c := ExpiredOrder(s.stash, now)[0];
      assert c in ExpiredOrder(s.stash, now);
      SpawnBooks(s, c, late => OverrunTurn(late, now));
    } else {
      WalkBooks(s, RetryOrder(s.stash, now), now);
    }
  }

  lemma HandBackBalance(l: Ledger, live: Keys, ks: Keys, started: bool)
    requires Booked(l, live + ks)
    ensures
      var m := if started then l.(started := l.started + ks) else DeadLetter(l, ks);
      Booked(m, live + ks)
  {
  }

  lemma HeldBackBooks(s: Loop, late: Stash, started: bool)
    requires s.stash.Valid() && Booked(s.ledger, Settled(s) + multiset(EntryKeys(late.entries)))
    ensures Booked(HeldBackEnded(s, late, started).ledger, Settled(HeldBackEnded(s, late, started)))
  {
    var ks, r := multiset(EntryKeys(late.entries)), HeldBackEnded(s, late, started);
    HandBackBalance(s.ledger, Settled(s), ks, started);
    assert Settled(r) == Settled(s) + ks;
  }

  // ---------------------------------------------------------------------
  // Stashing what was deferred
  // ---------------------------------------------------------------------

  /** Stashing one conversation, over plain multisets: `was` of `held` is replaced by `joined`, of which
      part is dropped, and the difference is what was folded together. */
  lemma StashBalance(held: Keys, was: Keys, joined: Keys, msgs: Keys, held': Keys, dropped: Keys, rest: Keys, l: Ledger, dead': Keys)
    requires held' + dropped == held - was + joined
    requires was <= held && joined <= was + msgs
    requires forall k :: k in was || k in msgs ==> k in joined
    requires Booked(l, held + rest + msgs) && dead' == l.dead + dropped
    ensures Booked(l.(dead := dead', merged := l.merged + (was + msgs - joined)), held' + dropped + rest)
  {
    assert held' + dropped + (was + msgs - joined) == held + msgs;
    assert held' + dropped + rest + (l.merged + (was + msgs - joined)) == held + rest + msgs + l.merged;
    forall k | k in l.admitted ensures k in held' + dropped + rest {
      if k in held && k !in was { assert (held - was)[k] > 0; }
    }
  }

  lemma MergedCounts(known: seq<HeldKey>, more: seq<HeldKey>, was: Keys, msgs: Keys, joined: Keys)
    requires was == multiset(known) && msgs == multiset(more) && joined == multiset(Union(known, more))
    ensures joined <= was + msgs
    ensures forall k :: k in was || k in msgs ==> k in joined
  {
    UnionCounts(known, more);
    UnionMembers(known, more);
  }

  lemma StashGroupBooks(s: Loop, g: Group, t: Tick, now: int, x: Keys)
    requires Tidy(s.stash) && Booked(s.ledger, Base(s) + x + multiset(KeysOf(g.messages)))
    ensures Booked(StashGroup(s, g, t, now).ledger, Base(StashGroup(s, g, t, now)) + x)
  {
    var gen, d := Some(s.generation), s.stash;
    var d' := StashAfter(d, g.conversation, g.messages, t.verdicts, now, gen);
    var dropped := DroppedKeys(StashDrops(d, g.conversation, g.messages, t.verdicts, now, gen));
    var was, msgs := multiset(EntryKeys(EntriesOf(d, g.conversation))), multiset(KeysOf(g.messages));
    StashConserves(d, g.conversation, g.messages, t.verdicts, now, gen);
    HeldRemove(d, g.conversation);
    var joined := multiset(Merged(d, g.conversation, g.messages));
    MergedCounts(EntryKeys(EntriesOf(d, g.conversation)), KeysOf(g.messages), was, msgs, joined);
    StashPutBooks(s, d', dropped, was, joined, msgs, x);
  }

  lemma StashPutBooks(s: Loop, d': Stashes, dropped: Keys, was: Keys, joined: Keys, msgs: Keys, x: Keys)
    requires s.stash.Valid() && d'.Valid()
    requires Held(d') + dropped == Held(s.stash) - was + joined
    requires was <= Held(s.stash) && joined <= was + msgs
    requires forall k :: k in was || k in msgs ==> k in joined
    requires Booked(s.ledger, Base(s) + x + msgs)
    ensures Booked(Put(s, d', dropped, was + msgs - joined).ledger, Base(Put(s, d', dropped, was + msgs - joined)) + x)
  {
    var l := s.ledger;
    var rest := l.started + l.dead + l.failed + l.lost + x;
    assert Base(s) + x + msgs == Held(s.stash) + rest + msgs;
    StashBalance(Held(s.stash), was, joined, msgs, Held(d'), dropped, rest, l, l.dead + dropped);
    assert Held(d') + dropped + rest == Held(d') + l.started + (l.dead + dropped) + l.failed + l.lost + x;
  }

  lemma {:induction false} StashGroupsBooks(s: Loop, gs: seq<Group>, t: Tick, now: int, x: Keys)
    requires Tidy(s.stash) && Filled(gs) && Booked(s.ledger, Base(s) + x + GroupKeys(gs))
    ensures Tidy(StashGroups(s, gs, t, now).stash)
    ensures Booked(StashGroups(s, gs, t, now).ledger, Base(StashGroups(s, gs, t, now)) + x)
  {
    if gs == [] {
      assert Base(s) + x + multiset{} == Base(s) + x;
    } else {
      var n := |gs| - 1;
      assert gs[n] in gs;
      var last := multiset(KeysOf(gs[n].messages));
      assert Base(s) + x + GroupKeys(gs) == Base(s) + (x + last) + GroupKeys(gs[..n]);
      StashGroupsBooks(s, gs[..n], t, now, x + last);
      var r := StashGroups(s, gs[..n], t, now);
      assert Base(r) + (x + last) == Base(r) + x + last;
      StashGroupBooks(r, gs[n], t, now, x);
      StashGroupShape(r, gs[n], t, now);
    }
  }

  // ---------------------------------------------------------------------
  // Planning
  // ---------------------------------------------------------------------

  lemma GroupKeysSnoc(gs: seq<Group>, g: Group)
    ensures GroupKeys(gs + [g]) == GroupKeys(gs) + multiset(KeysOf(g.messages))
  {
    assert (gs + [g])[..|gs|] == gs;
  }

  lemma GroupKeysCons(gs: seq<Group>)
    requires gs != []
    ensures GroupKeys(gs) == multiset(KeysOf(gs[0].messages)) + GroupKeys(gs[1..])
  {
    assert gs == [gs[0]] + gs[1..];
    GroupKeysConcat([gs[0]], gs[1..]);
    assert [gs[0]][..0] == [];
    assert GroupKeys([gs[0]]) == multiset(KeysOf(gs[0].messages));
  }

  lemma Regroup(a: Keys, b: Keys, c: Keys)
    ensures a + b + c == a + (b + c)
  {
  }

  lemma KeysConcat(a: seq<Message>, b: seq<Message>)
    ensures multiset(KeysOf(a + b)) == multiset(KeysOf(a)) + multiset(KeysOf(b))
  {
    assert KeysOf(a + b) == KeysOf(a) + KeysOf(b);
  }

  lemma {:induction false} AddKeys(gs: seq<Group>, m: Message)
    requires HasGroup(gs, m.conversation)
    ensures GroupKeys(AddToGroup(gs, m)) == GroupKeys(gs) + multiset{KeyOf(m)}
  {
    var n := |gs| - 1;
    assert gs == gs[..n] + [gs[n]];
    if gs[n].conversation == m.conversation {
      KeysConcat(gs[n].messages, [m]);
      assert KeysOf([m]) == [KeyOf(m)];
      GroupKeysSnoc(gs[..n], Group(m.conversation, gs[n].messages + [m]));
    } else {
      AddKeys(gs[..n], m);
      GroupKeysSnoc(AddToGroup(gs[..n], m), gs[n]);
    }
  }

  /** Grouping by conversation loses and invents nothing. */
  lemma {:induction false} GroupsPartition(kept: seq<Message>)
    ensures GroupKeys(GroupsOf(kept)) == multiset(KeysOf(kept))
  {
    if kept == [] {
      assert KeysOf(kept) == [];
    } else {
      hide GroupKeys;
      var n := |kept| - 1;
      GroupsPartition(kept[..n]);
      assert kept == kept[..n] + [kept[n]];
      KeysConcat(kept[..n], [kept[n]]);
      assert KeysOf([kept[n]]) == [KeyOf(kept[n])];
      var rest := GroupsOf(kept[..n]);
      if HasGroup(rest, kept[n].conversation) {
        AddKeys(rest, kept[n]);
      } else {
        GroupKeysSnoc(rest, Group(kept[n].conversation, [kept[n]]));
      }
    }
  }

  lemma {:induction false} SkipPartition(t: Tick, p: Plan)
    requires Partition(t, p)
    ensures Partition(t, SkipOperatorOnly(p))
    decreases |p.waiting|
  {
    if p.waiting != [] && !HasPeer(p.waiting[0]) {
      GroupKeysCons(p.waiting);
      KeysConcat(p.floored, p.waiting[0].messages);
      SkipPartition(t, p.(waiting := p.waiting[1..], floored := p.floored + p.waiting[0].messages));
    }
  }

  lemma AnswerPartition(t: Tick, p: Plan, answer: FloorAnswer)
    requires Partition(t, p) && p.waiting != []
    ensures Partition(t, Answered(p, answer))
  {
    GroupKeysCons(p.waiting);
    if answer.Denied? {
      GroupKeysSnoc(p.deferred, p.waiting[0]);
    } else {
      KeysConcat(p.floored, p.waiting[0].messages);
    }
  }

  // ---------------------------------------------------------------------
  // The covering turn
  // ---------------------------------------------------------------------

  lemma CarriedOnce(late: seq<HeldKey>, carried: seq<HeldKey>)
    requires NoDup(late) && NoDup(carried)
    ensures forall k :: k in multiset(carried) - multiset(late) ==> k !in multiset(late)
  {
    NoDupCounts(late);
    NoDupCounts(carried);
  }

  lemma LoadedBalance(held: seq<HeldKey>, floored: seq<HeldKey>, late: seq<HeldKey>, carried: seq<HeldKey>)
    requires late == Union([], held) && carried == Union(late, floored)
    ensures Loaded(multiset(held), multiset(floored), multiset(carried), multiset(late))
  {
    UnionCounts([], held);
    UnionCounts(late, floored);
    UnionMembers([], held);
    UnionMembers(late, floored);
    CarriedOnce(late, carried);
  }

  lemma CoverIsLoaded(d: Stashes, floored: seq<Message>, vs: Verdicts, gen: Generation)
    requires d.Valid()
    ensures CoverLoaded(d, floored, Cover(d, floored, vs, gen), CoveredBy(d, floored))
  {
    var cs, r := CoveredBy(d, floored), Cover(d, floored, vs, gen);
    CoveredIsDistinct(d, floored);
    var held := EntryKeys(HeldEntries(d.at, cs));
    if cs == [] {
      assert held == [] && r.messages == floored && r.late == [];
    } else {
      CoverCarriesAll(d, floored, vs, gen);
      LoadedBalance(held, KeysOf(floored), r.late, KeysOf(r.messages));
    }
  }

  lemma BoardBooks(s: Loop, floors: seq<string>, floored: seq<Message>, cargo: Cargo, covered: seq<string>)
    requires s.stash.Valid() && Booked(s.ledger, Settled(s) + multiset(KeysOf(floored)))
    requires CoverLoaded(s.stash, floored, cargo, covered)
    ensures Books(Board(s, floors, floored, cargo, covered))
  {
    hide Booked, CoverLoaded, Settled;
    SameSettled(s, Board(s, floors, floored, cargo, covered));
  }

  lemma SameSettled(s: Loop, r: Loop)
    requires s.stash.Valid() && r.stash == s.stash && r.unhanded == s.unhanded && r.ledger == s.ledger
    ensures Settled(r) == Settled(s)
  {
  }

  lemma SpawnCoveringBooks(s: Loop, p: Plan, t: Tick)
    requires s.stash.Valid() && Booked(s.ledger, Settled(s) + multiset(KeysOf(p.floored)))
    ensures Books(SpawnCovering(s, p, t))
  {
    CoverIsLoaded(s.stash, p.floored, t.verdicts, s.generation);
    BoardBooks(s, p.toRelease, p.floored, Cover(s.stash, p.floored, t.verdicts, s.generation), CoveredBy(s.stash, p.floored));
  }

  /** The stopped tick hands its floors back; what it had acked is on record already. */
  lemma HandBackBooks(s: Loop, floors: seq<string>)
    requires Tidy(s.stash) && s.unhanded == [] && Booked(s.ledger, Settled(s))
    ensures Books(ReleaseThenEnd(s, floors))
  {
    if floors == [] { EndTickBooks(s); } else { SameBooks(s, s.(phase := HandingBack(floors[0], floors[1..]))); }
  }

  lemma PlanSplit(kept: Keys, base: Keys, floored: Keys, deferred: Keys)
    requires kept == floored + multiset{} + deferred
    ensures kept + base == base + floored + deferred
  {
  }

  lemma DeferBooks(s: Loop, t: Tick, p: Plan, now: int)
    requires Tidy(s.stash) && s.unhanded == t.kept && Filled(p.deferred) && p.waiting == [] && Partition(t, p)
    requires Booked(s.ledger, Settled(s))
    ensures
      var r := StashGroups(s, p.deferred, t, now).(unhanded := []);
      Tidy(r.stash) && Booked(r.ledger, Settled(r) + multiset(KeysOf(p.floored)))
  {
    var x := multiset(KeysOf(p.floored));
    PlanSplit(multiset(KeysOf(t.kept)), Base(s), x, GroupKeys(p.deferred));
    StashGroupsBooks(s, p.deferred, t, now, x);
    var r := StashGroups(s, p.deferred, t, now).(unhanded := []);
    assert KeysOf(r.unhanded) == [];
    assert Settled(r) + x == Base(StashGroups(s, p.deferred, t, now)) + x;
  }

  lemma DeferredBooks(s: Loop, t: Tick, p: Plan, now: int)
    requires Tidy(s.stash) && !s.stopped && s.unhanded == t.kept && Booked(s.ledger, Settled(s))
    requires FilledPlan(p) && p.waiting == [] && Partition(t, p)
    ensures Books(FinishPlan(s, t, p, now))
  {
    hide Booked, Partition, StashGroups, ServiceDeferred, SpawnCovering;
    DeferBooks(s, t, p, now);
    var r := StashGroups(s, p.deferred, t, now).(unhanded := []);
    if p.floored == [] {
      assert Settled(r) + multiset(KeysOf(p.floored)) == Settled(r);
      ServiceBooks(r, now);
    } else {
      SpawnCoveringBooks(r, p, t);
    }
  }

  lemma FinishBooks(s: Loop, t: Tick, p: Plan, now: int)
    requires Tidy(s.stash) && Booked(s.ledger, Settled(s)) && FilledPlan(p) && p.waiting == [] && Partition(t, p)
    requires s.unhanded == (if s.stopped then [] else t.kept)
    ensures Books(FinishPlan(s, t, p, now))
  {
    if s.stopped { HandBackBooks(s, p.toRelease); } else { DeferredBooks(s, t, p, now); }
  }

  lemma ContinueBooks(s: Loop, t: Tick, p: Plan, now: int)
    requires Tidy(s.stash) && Booked(s.ledger, Settled(s)) && FilledPlan(p) && Partition(t, p)
    requires s.unhanded == (if s.stopped then [] else t.kept)
    ensures Books(ContinuePlan(s, t, p, now))
  {
    SkipFilled(p);
    SkipPartition(t, p);
    var q := SkipOperatorOnly(p);
    if q.waiting == [] {
      FinishBooks(s, t, q, now);
    } else {
      var r := s.(phase := Planning(t, q), effects := s.effects + [FloorAsked]);
      assert Live(r) == Settled(s);
    }
  }

  lemma StartBalance(l: Ledger, hand: Keys, held: Keys, kept: Keys, took: Keys, floored: Keys, carried: Keys, late: Keys, started': Keys)
    requires held == kept + took && Loaded(took, floored, carried, late) && started' == l.started + carried
    requires Booked(l, hand + (held + l.started + l.dead + l.failed + l.lost) + floored)
    ensures Booked(l.(started := started', merged := l.merged + (floored + took - carried)),
                   hand + (kept + started' + l.dead + l.failed + l.lost))
  {
    var rest := l.started + l.dead + l.failed + l.lost;
    assert carried + (floored + took - carried) == floored + took;
    assert hand + (held + rest) + floored + l.merged
        == hand + (kept + (l.started + carried) + l.dead + l.failed + l.lost) + (l.merged + (floored + took - carried));
    assert hand + (held + l.started + l.dead + l.failed + l.lost) == hand + (held + rest);
  }

  lemma CoverStartedBooks(s: Loop)
    requires Tidy(s.stash) && s.phase.CoverTurn? && Books(s)
    ensures Booked(CoverStarted(s).ledger, Settled(CoverStarted(s)))
  {
    var r, took := CoverStarted(s), multiset(EntryKeys(HeldEntries(s.stash.at, s.phase.covered)));
    assert Present(s.stash, s.phase.covered) == s.phase.covered;
    ClearTakesHeld(s.stash, s.phase.covered);
    StartBalance(s.ledger, multiset(KeysOf(s.unhanded)), Held(s.stash), Held(r.stash), took, multiset(KeysOf(s.phase.floored)),
                 multiset(KeysOf(s.phase.cargo.messages)), multiset(s.phase.cargo.late), r.ledger.started);
  }

  lemma FailBalance(l: Ledger, hand: Keys, held: Keys, took: Keys, floored: Keys, carried: Keys, late: Keys, failed': Keys)
    requires took <= held && Loaded(took, floored, carried, late) && failed' == l.failed + (carried - late)
    requires Booked(l, hand + (held + l.started + l.dead + l.failed + l.lost) + floored)
    ensures Booked(l.(failed := failed', merged := l.merged + (floored - (carried - late))),
                   hand + (held + l.started + l.dead + failed' + l.lost))
  {
    var lost := carried - late;
    assert lost + (floored - lost) == floored;
    var live' := hand + (held + l.started + l.dead + failed' + l.lost);
    assert hand + (held + l.started + l.dead + l.failed + l.lost) + floored + l.merged == live' + (l.merged + (floored - lost));
    forall k | k in l.admitted ensures k in live' {
      if k in floored && k !in lost {
        assert k in carried;
        assert k in late;
        assert k in held;
      }
    }
  }

  lemma CoverFailedBooks(s: Loop)
    requires Tidy(s.stash) && s.phase.CoverTurn? && Books(s)
    ensures Booked(CoverFailed(s).ledger, Settled(CoverFailed(s)))
  {
    var took := multiset(EntryKeys(HeldEntries(s.stash.at, s.phase.covered)));
    var lost := multiset(KeysOf(s.phase.cargo.messages)) - multiset(s.phase.cargo.late);
    var floored := multiset(KeysOf(s.phase.floored));
    ClearTakesHeld(s.stash, s.phase.covered);
    FailBalance(s.ledger, multiset(KeysOf(s.unhanded)), Held(s.stash), took, floored,
                multiset(KeysOf(s.phase.cargo.messages)), multiset(s.phase.cargo.late), s.ledger.failed + lost);
    FlushBooks(CoverLost(s));
  }

  lemma FailedLedger(s: Loop)
    requires s.stash.Valid() && s.phase.CoverTurn?
    ensures CoverFailed(s).ledger.failed == s.ledger.failed + (multiset(KeysOf(s.phase.cargo.messages)) - multiset(s.phase.cargo.late))
  {
  }

  /** A covering turn that fails to start loses only fresh messages: none that a covered stash still holds. */
  lemma FailedTurnLosesOnlyFresh(s: Loop, k: HeldKey)
    requires s.phase.CoverTurn? && Books(s)
    requires CoverFailed(s).ledger.failed[k] > s.ledger.failed[k]
    ensures k in KeysOf(s.phase.floored)
    ensures forall e :: e in HeldEntries(s.stash.at, s.phase.covered) ==> KeyOf(e.message) != k
  {
    hide CoverFailed, Booked, Live;
    var es := HeldEntries(s.stash.at, s.phase.covered);
    var lost := multiset(KeysOf(s.phase.cargo.messages)) - multiset(s.phase.cargo.late);
    FailedLedger(s);
    assert k in lost;
    assert k !in EntryKeys(es);
    forall e | e in es ensures KeyOf(e.message) != k {
      var i :| 0 <= i < |es| && es[i] == e;
      assert EntryKeys(es)[i] == KeyOf(e.message);
    }
  }

  // ---------------------------------------------------------------------
  // Every step
  // ---------------------------------------------------------------------

  lemma AdmitBalance(l: Ledger, base: Keys, kept: Keys)
    requires Booked(l, base)
    ensures Booked(l.(admitted := l.admitted + kept), kept + base)
  {
  }

  lemma AckBooks(s: Loop, t: Tick)
    requires s.stash.Valid() && s.unhanded == [] && Booked(s.ledger, Settled(s))
    ensures Books(BeginAck(s, t))
  {
    assert KeysOf(s.unhanded) == [];
    assert Settled(s) == Base(s);
    AdmitBalance(s.ledger, Base(s), multiset(KeysOf(t.kept)));
    var r := BeginAck(s, t);
    assert Live(r) == multiset(KeysOf(t.kept)) + Base(s);
  }

  lemma NothingAboard(s: Loop)
    requires Books(s) && Aboard(s.phase) == multiset{}
    ensures Booked(s.ledger, Settled(s))
  {
    assert Live(s) == Settled(s);
  }

  lemma AfterPollBooks(s: Loop, b: Batch, t: Tick, now: int)
    requires Tidy(s.stash) && s.unhanded == [] && Booked(s.ledger, Settled(s))
    ensures Books(AfterPoll(s, b, t, now))
  {
    if !b.anyReal {
      if b.messages == [] {
        ServiceBooks(s, now);
      } else {
        SameBooks(s, s.(phase := QuietAck, effects := s.effects + [AckStarted]));
      }
    } else if b.notices > 0 {
      SameBooks(s, s.(phase := Noticing(t, b.notices - 1)));
    } else {
      AckBooks(s, t);
    }
  }

  lemma PollBooks(s: Loop, b: Batch, now: int)
    requires Shape(s) && s.phase.Polling? && Books(s) && ValidBatch(b)
    ensures Books(PollStep(s, b, now))
  {
    NothingAboard(s);
    if s.stopped { EndTickBooks(s); } else { AfterPollBooks(s.(generation := b.generation), b, TickOf(b), now); }
  }

  lemma AckStepBooks(s: Loop, now: int)
    requires Shape(s) && (s.phase.QuietAck? || s.phase.Acking?) && Books(s)
    ensures Books(AckStep(s, now))
  {
    NothingAboard(s);
    if s.stopped {
      EndTickBooks(s);
    } else if s.phase.QuietAck? || s.phase.tick.kept == [] {
      ServiceBooks(s, now);
    } else {
      var t := s.phase.tick;
      var p := Plan(GroupsOf(t.kept), [], [], []);
      GroupsFilled(t.kept);
      GroupsPartition(t.kept);
      assert KeysOf(p.floored) == [];
      ContinueBooks(s, t, p, now);
    }
  }

  lemma NoticeBooks(s: Loop)
    requires Shape(s) && s.phase.Noticing? && Books(s)
    ensures Books(NoticeStep(s))
  {
    NothingAboard(s);
    if s.stopped {
      EndTickBooks(s);
    } else if s.phase.left > 0 {
      SameBooks(s, NoticeStep(s));
    } else {
      AckBooks(s, s.phase.tick);
    }
  }

  lemma PlanStepBooks(s: Loop, answer: FloorAnswer, now: int)
    requires Shape(s) && s.phase.Planning? && s.phase.plan.waiting != [] && Books(s)
    ensures Books(ContinuePlan(s, s.phase.tick, Answered(s.phase.plan, answer), now))
  {
    NothingAboard(s);
    AnswerPartition(s.phase.tick, s.phase.plan, answer);
    assert s.phase.plan.waiting[0] in s.phase.plan.waiting;
    ContinueBooks(s, s.phase.tick, Answered(s.phase.plan, answer), now);
  }

  lemma RetryBooks(s: Loop, answer: FloorAnswer)
    requires Shape(s) && s.phase.RetryAsk? && Books(s)
    ensures Books(RetryStep(s, answer))
  {
    NothingAboard(s);
    var c, rest, at := s.phase.conversation, s.phase.rest, s.phase.at;
    if answer.Failed? {
      WalkBooks(s, rest, at);
    } else if s.stopped {
      if answer.Granted? { SameBooks(s, RetryStep(s, answer)); } else { EndTickBooks(s); }
    } else if answer.Denied? {
      WalkBooks(s, rest, at);
    } else if c in s.stash.at && !s.inFlight {
      SpawnBooks(s, c, late => RetryTurn(c, late));
    } else {
      SameBooks(s, RetryStep(s, answer));
    }
  }

  lemma ServiceOrEndBooks(s: Loop, now: int)
    requires Tidy(s.stash) && s.unhanded == [] && Booked(s.ledger, Settled(s))
    ensures Books(ServiceOrEnd(s, now))
  {
    if s.stopped { EndTickBooks(s); } else { ServiceBooks(s, now); }
  }

  lemma AfterCoverBooks(s: Loop, floors: seq<string>, now: int)
    requires Tidy(s.stash) && s.unhanded == [] && Booked(s.ledger, Settled(s))
    ensures Books(AfterCoverTurn(s, floors, now))
  {
    if floors == [] { ServiceOrEndBooks(s, now); } else { SameBooks(s, AfterCoverTurn(s, floors, now)); }
  }

  lemma CoverEndBooks(s: Loop, started: bool, now: int)
    requires Shape(s) && s.phase.CoverTurn? && Books(s)
    ensures Books(SpawnStep(s, started, now))
  {
    var t := if started then CoverStarted(s) else CoverFailed(s);
    CoverEndShape(s, started);
    if started { CoverStartedBooks(s); } else { CoverFailedBooks(s); }
    AfterCoverBooks(t, s.phase.floors, now);
  }

  lemma OverrunEndBooks(s: Loop, started: bool, now: int)
    requires Shape(s) && s.phase.OverrunTurn? && Books(s)
    ensures Books(SpawnStep(s, started, now))
  {
    var t := HeldBackEnded(s, s.phase.late, started);
    HeldBackBooks(s, s.phase.late, started);
    if started { EndTickBooks(t); } else { WalkBooks(t, RetryOrder(t.stash, s.phase.at), s.phase.at); }
  }

  lemma ServedBooks(s: Loop, c: string)
    requires s.stash.Valid() && Booked(s.ledger, Settled(s))
    ensures Books(s.(phase := RetryRelease(c, [], false, 0)))
  {
    SameBooks(s, s.(phase := RetryRelease(c, [], false, 0)));
  }

  lemma RetryEndBooks(s: Loop, c: string, late: Stash, started: bool)
    requires s.stash.Valid() && s.phase == RetryTurn(c, late) && Books(s)
    ensures Books(HeldBackEnded(s, late, started).(phase := RetryRelease(c, [], false, 0)))
  {
    HeldBackBooks(s, late, started);
    ServedBooks(HeldBackEnded(s, late, started), c);
  }

  lemma ReleaseBooks(s: Loop, now: int)
    requires Shape(s) && (s.phase.HandingBack? || s.phase.Releasing? || s.phase.RetryRelease?) && Books(s)
    ensures Books(ReleaseStep(s, now))
  {
    NothingAboard(s);
    match s.phase
    case HandingBack(_, others) => HandBackBooks(s, others);
    case Releasing(_, others) => AfterCoverBooks(s, others, now);
    case RetryRelease(_, rest, more, at) => if more { WalkBooks(s, rest, at); } else { EndTickBooks(s); }
  }

  lemma {:induction false} HeldEntriesFrame(at: map<string, Stash>, at': map<string, Stash>, cs: seq<string>)
    requires forall c :: c in cs ==> c in at && c in at' && at[c] == at'[c]
    ensures HeldEntries(at, cs) == HeldEntries(at', cs)
  {
    if cs != [] { HeldEntriesFrame(at, at', cs[..|cs| - 1]); }
  }

  lemma StopBooks(s: Loop)
    requires Shape(s) && Books(s)
    ensures Books(FlushOnStop(s.(stopped := true)))
  {
    var t := s.(stopped := true);
    var r := FlushOnStop(t);
    FlushBooks(t);
    assert Settled(t) == Settled(s);
    assert Live(r) == Live(s);
    if s.phase.CoverTurn? {
      HeldEntriesFrame(s.stash.at, r.stash.at, s.phase.covered);
    }
  }

  lemma ActBooks(s: Loop, a: Action)
    requires Shape(s) && Books(s) && Ready(s, a)
    ensures Books(Act(s, a))
  {
    match a
    case TickFires => NothingAboard(s); SameBooks(s, Act(s, a));
    case PollFails => NothingAboard(s); EndTickBooks(s);
    case PollReturns(b, now) => PollBooks(s, b, now);
    case AckReturns(now) => AckStepBooks(s, now);
    case NoticeReturns => NoticeBooks(s);
    case FloorAnswers(answer, now) => if s.phase.Planning? { PlanStepBooks(s, answer, now); } else { RetryBooks(s, answer); }
    case SpawnDecided(started, now) =>
      match s.phase {
        case CoverTurn(_, _, _, _) => CoverEndBooks(s, started, now);
        case OverrunTurn(_, _) => OverrunEndBooks(s, started, now);
        case RetryTurn(c, late) => RetryEndBooks(s, c, late, started);
      }
    case ReleaseReturns(now) => ReleaseBooks(s, now);
    case Stop => StopBooks(s);
  }

  // ---------------------------------------------------------------------
  // A logger that throws
  // ---------------------------------------------------------------------

  lemma LoseBalance(l: Ledger, base: Keys, ks: Keys)
    requires Booked(l, base + ks)
    ensures Booked(l.(lost := l.lost + ks), base + ks)
  {
  }

  /** What the cleanup forgets is booked as lost, and nothing else changes hands. */
  lemma AbandonBooks(s: Loop, ks: Keys)
    requires Tidy(s.stash) && s.unhanded == [] && Booked(s.ledger, Settled(s) + ks)
    ensures Books(Abandon(s, ks))
  {
    var r := s.(inFlight := false, ledger := s.ledger.(lost := s.ledger.lost + ks));
    LoseBalance(s.ledger, Settled(s), ks);
    assert Settled(r) == Settled(s) + ks;
    EndTickBooks(r);
  }

  lemma HandsBooks(s: Loop)
    requires Tidy(s.stash) && Booked(s.ledger, Settled(s))
    ensures Books(Abandon(s, multiset(KeysOf(s.unhanded))))
  {
    var r := s.(unhanded := []);
    assert KeysOf(r.unhanded) == [];
    assert Settled(r) + multiset(KeysOf(s.unhanded)) == Settled(s);
    AbandonBooks(r, multiset(KeysOf(s.unhanded)));
    assert Abandon(r, multiset(KeysOf(s.unhanded))) == Abandon(s, multiset(KeysOf(s.unhanded)));
  }

  lemma ReportingBooks(s: Loop, a: Action)
    requires Shape(s) && Books(s) && Ready(s, a) && Reports(s, a)
    ensures Books(ThrownReporting(s, a))
  {
    match a
    case PollReturns(b, _) =>
      NothingAboard(s);
      var r := if s.stopped then s else s.(generation := b.generation);
      assert Settled(r) == Settled(s);
      EndTickBooks(r);
    case SpawnDecided(_, _) =>
      if s.phase.CoverTurn? {
        CoverEndShape(s, false);
        CoverFailedBooks(s);
        EndTickBooks(CoverFailed(s));
      } else {
        var r := s.(effects := s.effects + [TurnEnded]);
        assert Settled(r) == Settled(s);
        AbandonBooks(r, Aboard(s.phase));
      }
    case _ =>
      NothingAboard(s);
      HandsBooks(s);
  }

  lemma AnnouncingBooks(s: Loop, r: Loop)
    requires Shape(r) && Books(r) && Announces(s, r)
    ensures Books(ThrownAnnouncing(s, r))
  {
    var t := r.(effects := r.effects[..|r.effects| - 1], turns := s.turns);
    assert Settled(t) == Settled(r);
    assert t.unhanded == [];
    AbandonBooks(t, Aboard(r.phase));
  }

  lemma {:induction false} GroupKeysConcat(a: seq<Group>, b: seq<Group>)
    ensures GroupKeys(a + b) == GroupKeys(a) + GroupKeys(b)
  {
    if b == [] {
      assert a + b == a;
    } else {
      var n := |b| - 1;
      GroupKeysConcat(a, b[..n]);
      var last := multiset(KeysOf(b[n].messages));
      assert (a + b)[..|a + b| - 1] == a + b[..n];
      Regroup(GroupKeys(a), GroupKeys(b[..n]), last);
    }
  }

  lemma GroupKeysSplit(gs: seq<Group>, g: nat)
    requires g < |gs|
    ensures GroupKeys(gs) == GroupKeys(gs[..g]) + multiset(KeysOf(gs[g].messages)) + GroupKeys(gs[g + 1..])
  {
    hide GroupKeys;
    var front, back := gs[..g] + [gs[g]], gs[g + 1..];
    assert gs == front + back;
    GroupKeysConcat(front, back);
    GroupKeysSnoc(gs[..g], gs[g]);
  }

  lemma UnrecordedBalance(l: Ledger, dead: Keys, made: Keys, missing: Keys, others: Keys, x: Keys)
    requires l.dead == dead + (made + missing)
    requires Booked(l, others + l.dead + x)
    ensures Booked(l.(dead := dead + made), others + (dead + made) + (missing + x))
  {
    assert others + l.dead + x == others + (dead + made) + (missing + x);
  }

  /** `u` is `r` with the drops from some point on not put on record. */
  lemma UnrecordedBooks(r: Loop, u: Loop, dead: Keys, made: Keys, missing: Keys, x: Keys)
    requires r.stash.Valid() && u == r.(ledger := r.ledger.(dead := dead + made)) && r.ledger.dead == dead + (made + missing)
    requires Booked(r.ledger, Base(r) + x)
    ensures Booked(u.ledger, Base(u) + (missing + x))
  {
    var l := r.ledger;
    var others := Held(r.stash) + l.started + l.failed + l.lost;
    assert Base(r) + x == others + l.dead + x;
    UnrecordedBalance(l, dead, made, missing, others, x);
    assert Base(u) == others + (dead + made);
  }

  lemma SplitBalance(base: Keys, x: Keys, all: Keys, front: Keys, group: Keys, back: Keys)
    requires all == front + group + back
    ensures base + x + all == base + (back + x + group) + front
  {
  }

  lemma BeforeGroupBooks(s: Loop, gs: seq<Group>, g: nat, t: Tick, now: int, x: Keys)
    requires Tidy(s.stash) && Filled(gs) && g < |gs| && Booked(s.ledger, Base(s) + x + GroupKeys(gs))
    ensures
      var before := StashGroups(s, gs[..g], t, now);
      Tidy(before.stash) && Booked(before.ledger, Base(before) + (GroupKeys(gs[g + 1..]) + x) + multiset(KeysOf(gs[g].messages)))
  {
    var group, back := multiset(KeysOf(gs[g].messages)), GroupKeys(gs[g + 1..]);
    assert Filled(gs[..g]);
    GroupKeysSplit(gs, g);
    SplitBalance(Base(s), x, GroupKeys(gs), GroupKeys(gs[..g]), group, back);
    StashGroupsBooks(s, gs[..g], t, now, back + x + group);
    var before := StashGroups(s, gs[..g], t, now);
    Regroup(Base(before), back + x, group);
  }

  lemma StashUpToBooks(s: Loop, gs: seq<Group>, g: nat, d: nat, t: Tick, now: int, x: Keys)
    requires Tidy(s.stash) && Filled(gs) && g < |gs| && d <= |GroupDrops(s, gs, g, t, now)|
    requires Booked(s.ledger, Base(s) + x + GroupKeys(gs))
    ensures
      var u := StashUpTo(s, gs, g, d, t, now);
      Booked(u.ledger, Base(u) + (DroppedKeys(GroupDrops(s, gs, g, t, now)[d..]) + (GroupKeys(gs[g + 1..]) + x)))
  {
    hide StashGroup, StashGroups, Booked, Base, DroppedKeys, GroupKeys, GroupDrops;
    var rest, before := GroupKeys(gs[g + 1..]) + x, StashGroups(s, gs[..g], t, now);
    BeforeGroupBooks(s, gs, g, t, now, x);
    StashGroupBooks(before, gs[g], t, now, rest);
    var drops := GroupDrops(s, gs, g, t, now);
    StashGroupDead(s, gs, g, t, now);
    assert drops == drops[..d] + drops[d..];
    DroppedKeysConcat(drops[..d], drops[d..]);
    UnrecordedBooks(StashGroup(before, gs[g], t, now), StashUpTo(s, gs, g, d, t, now), before.ledger.dead,
                    DroppedKeys(drops[..d]), DroppedKeys(drops[d..]), rest);
  }

  lemma StashGroupDead(s: Loop, gs: seq<Group>, g: nat, t: Tick, now: int)
    requires s.stash.Valid() && g < |gs|
    ensures
      var before := StashGroups(s, gs[..g], t, now);
      StashGroup(before, gs[g], t, now).ledger.dead == before.ledger.dead + DroppedKeys(GroupDrops(s, gs, g, t, now))
  {
    StashGroupsGeneration(s, gs[..g], t, now);
  }

  lemma {:induction false} StashGroupsGeneration(s: Loop, gs: seq<Group>, t: Tick, now: int)
    requires s.stash.Valid()
    ensures StashGroups(s, gs, t, now).generation == s.generation
  {
    if gs != [] { StashGroupsGeneration(s, gs[..|gs| - 1], t, now); }
  }

  lemma DroppingBooks(s: Loop, a: Action, g: nat, d: nat)
    requires Shape(s) && Books(s) && CanDrop(s, a, g, d)
    ensures Books(ThrownDropping(s, a, g, d))
  {
    hide StashUpTo, GroupDrops, Booked;
    NothingAboard(s);
    var q, t := FinalPlan(s, a), s.phase.tick;
    AnswerPartition(t, s.phase.plan, a.answer);
    SkipPartition(t, Answered(s.phase.plan, a.answer));
    FinalPlanFilled(s, a);
    var floored := multiset(KeysOf(q.floored));
    PlanSplit(multiset(KeysOf(t.kept)), Base(s), floored, GroupKeys(q.deferred));
    assert Settled(s) == Base(s) + floored + GroupKeys(q.deferred);
    StashUpToBooks(s, q.deferred, g, d, t, a.now, floored);
    StashUpToShape(s, q.deferred, g, d, t, a.now);
    DropAll(StashUpTo(s, q.deferred, g, d, t, a.now), DroppedKeys(GroupDrops(s, q.deferred, g, t, a.now)[d..]),
            GroupKeys(q.deferred[g + 1..]), floored);
  }

  lemma DropAll(u: Loop, dropped: Keys, rest: Keys, floored: Keys)
    requires Tidy(u.stash) && Booked(u.ledger, Base(u) + (dropped + (rest + floored)))
    ensures Books(Abandon(u, dropped + rest + floored))
  {
    var ks := dropped + rest + floored;
    assert ks == dropped + (rest + floored);
    var v := u.(unhanded := []);
    assert KeysOf(v.unhanded) == [];
    assert Settled(v) == Base(u);
    AbandonBooks(v, ks);
    assert Abandon(v, ks) == Abandon(u, ks);
  }

  lemma RecordedBooks(s: Loop)
    requires Shape(s) && Books(s) && s.phase.RetryTurn?
    ensures Books(EndTick(HeldBackEnded(s, s.phase.late, false)))
  {
    HeldBackBooks(s, s.phase.late, false);
    EndTickBooks(HeldBackEnded(s, s.phase.late, false));
  }

  lemma ThrownBooks(s: Loop, a: Action, site: Site)
    requires Shape(s) && Books(s) && CanThrow(s, a, site)
    ensures Books(Thrown(s, a, site))
  {
    hide Books;
    match site
    case Reporting => ReportingBooks(s, a);
    case Recorded => RecordedBooks(s);
    case Announcing =>
      ActShape(s, a);
      ActBooks(s, a);
      AnnouncingBooks(s, Act(s, a));
    case Dropping(g, d) => DroppingBooks(s, a, g, d);
  }

  lemma NextBooks(s: Loop, a: Action)
    requires Shape(s) && Books(s) && Enabled(s, a)
    ensures Books(Next(s, a))
  {
    if a.TickThrows? { ThrownBooks(s, a.during, a.site); } else { ActBooks(s, a); }
  }

  // ---------------------------------------------------------------------
  // Over whole runs
  // ---------------------------------------------------------------------

  lemma StartBooks(generation: Generation)
    ensures Books(Start(generation))
  {
    assert KeysOf(Start(generation).unhanded) == [];
    assert Live(Start(generation)) == multiset{};
  }

  lemma {:induction false} RunBooks(ss: seq<Loop>, acts: seq<Action>, i: nat)
    requires IsRun(ss, acts) && i <= |acts|
    ensures Books(ss[i])
  {
    hide Next, Enabled, Shape, Books, Start;
    if i == 0 {
      RunStart(ss, acts);
      StartBooks(ss[0].generation);
    } else {
      RunShape(ss, acts, i - 1);
      RunBooks(ss, acts, i - 1);
      RunStep(ss, acts, i - 1);
      NextBooks(ss[i - 1], acts[i - 1]);
    }
  }

  ghost function InHands(s: Loop): Keys {
    multiset(KeysOf(s.unhanded))
  }

  /** Where an admitted message can be that nothing has forgotten. */
  ghost function Places(s: Loop): Keys
    requires s.stash.Valid()
  {
    InHands(s) + Held(s.stash) + Aboard(s.phase) + s.ledger.started + s.ledger.dead + s.ledger.failed
  }

  lemma LiveIsPlaces(s: Loop)
    requires s.stash.Valid()
    ensures Live(s) == Places(s) + s.ledger.lost
  {
  }

  /** In every run, at every point, every admitted message is accounted for: in the tick's hands, held back, aboard
      an undecided turn, in a started turn, dead-lettered, fresh in a failed one, or forgotten when a logger threw;
      copies may be folded into one, never into none. */
  lemma EverythingIsAccounted(ss: seq<Loop>, acts: seq<Action>, i: nat)
    requires IsRun(ss, acts) && i <= |acts|
    ensures
      var s := ss[i];
      && s.stash.Valid()
      && s.ledger.admitted == Places(s) + s.ledger.lost + s.ledger.merged
      && (forall k :: k in s.ledger.admitted ==> k in Places(s) + s.ledger.lost)
  {
    RunBooks(ss, acts, i);
    LiveIsPlaces(ss[i]);
  }

  lemma {:induction false} StashGroupsLost(s: Loop, gs: seq<Group>, t: Tick, now: int)
    requires s.stash.Valid()
    ensures StashGroups(s, gs, t, now).ledger.lost == s.ledger.lost
  {
    if gs != [] { StashGroupsLost(s, gs[..|gs| - 1], t, now); }
  }

  ghost predicate SameLost(s: Loop, r: Loop) {
    r.ledger.lost == s.ledger.lost
  }

  lemma ServiceLosesNothing(s: Loop, now: int)
    requires s.stash.Valid()
    ensures SameLost(s, ServiceDeferred(s, now)) && SameLost(s, EndTick(s))
  {
    if ExpiredOrder(s.stash, now) != [] {
      assert ExpiredOrder(s.stash, now)[0] in ExpiredOrder(s.stash, now);
    }
  }

  lemma FinishLosesNothing(s: Loop, t: Tick, p: Plan, now: int)
    requires s.stash.Valid()
    ensures SameLost(s, FinishPlan(s, t, p, now))
  {
    hide ServiceDeferred, EndTick, StashGroups, Cover, CoveredBy;
    StashGroupsLost(s, p.deferred, t, now);
    ServiceLosesNothing(s, now);
    ServiceLosesNothing(StashGroups(s, p.deferred, t, now).(unhanded := []), now);
  }

  lemma ContinueLosesNothing(s: Loop, t: Tick, p: Plan, now: int)
    requires s.stash.Valid()
    ensures SameLost(s, ContinuePlan(s, t, p, now))
  {
    hide FinishPlan;
    FinishLosesNothing(s, t, SkipOperatorOnly(p), now);
  }

  lemma PollLosesNothing(s: Loop, b: Batch, now: int)
    requires s.stash.Valid() && ValidBatch(b)
    ensures SameLost(s, PollStep(s, b, now))
  {
    hide ServiceDeferred, EndTick, TickOf;
    ServiceLosesNothing(s, now);
    ServiceLosesNothing(s.(generation := b.generation), now);
  }

  lemma AckLosesNothing(s: Loop, now: int)
    requires s.stash.Valid() && (s.phase.QuietAck? || s.phase.Acking?)
    ensures SameLost(s, AckStep(s, now))
  {
    hide ServiceDeferred, EndTick, ContinuePlan;
    ServiceLosesNothing(s, now);
    if s.phase.Acking? { ContinueLosesNothing(s, s.phase.tick, Plan(GroupsOf(s.phase.tick.kept), [], [], []), now); }
  }

  lemma WalkLosesNothing(s: Loop, cs: seq<string>, now: int)
    requires s.stash.Valid()
    ensures SameLost(s, WalkRetries(s, cs, now))
  {
  }

  lemma AfterCoverLosesNothing(s: Loop, floors: seq<string>, now: int)
    requires s.stash.Valid()
    ensures SameLost(s, AfterCoverTurn(s, floors, now))
  {
    hide ServiceDeferred, EndTick;
    ServiceLosesNothing(s, now);
  }

  lemma SpawnLosesNothing(s: Loop, started: bool, now: int)
    requires s.stash.Valid() && Spawning(s.phase)
    ensures SameLost(s, SpawnStep(s, started, now))
    ensures s.phase.CoverTurn? ==> SameLost(s, CoverFailed(s))
  {
    hide WalkRetries, EndTick, AfterCoverTurn, ClearAll;
    match s.phase
    case CoverTurn(floors, _, _, _) => AfterCoverLosesNothing(if started then CoverStarted(s) else CoverFailed(s), floors, now);
    case OverrunTurn(late, at) =>
      var t := HeldBackEnded(s, late, started);
      ServiceLosesNothing(t, at);
      WalkLosesNothing(t, RetryOrder(t.stash, at), at);
    case RetryTurn(c, late) =>
  }

  lemma ReleaseLosesNothing(s: Loop, now: int)
    requires s.stash.Valid() && (s.phase.HandingBack? || s.phase.Releasing? || s.phase.RetryRelease?)
    ensures SameLost(s, ReleaseStep(s, now))
  {
    hide WalkRetries, EndTick, AfterCoverTurn;
    ServiceLosesNothing(s, now);
    match s.phase
    case HandingBack(_, others) =>
    case Releasing(_, others) => AfterCoverLosesNothing(s, others, now);
    case RetryRelease(_, rest, _, at) => WalkLosesNothing(s, rest, at);
  }

  /** Only a thrown tick loses anything. */
  lemma ActLosesNothing(s: Loop, a: Action)
    requires Ready(s, a)
    ensures SameLost(s, Act(s, a))
  {
    hide EndTick, WalkRetries, AckStep, PollStep, ContinuePlan, SpawnStep, ReleaseStep, ClearAll, ServiceDeferred;
    ServiceLosesNothing(s, 0);
    match a
    case PollReturns(b, now) => PollLosesNothing(s, b, now);
    case AckReturns(now) => AckLosesNothing(s, now);
    case FloorAnswers(answer, now) =>
      if s.phase.Planning? {
        ContinueLosesNothing(s, s.phase.tick, Answered(s.phase.plan, answer), now);
      } else {
        WalkLosesNothing(s, s.phase.rest, s.phase.at);
      }
    case SpawnDecided(started, now) => SpawnLosesNothing(s, started, now);
    case ReleaseReturns(now) => ReleaseLosesNothing(s, now);
    case _ =>
  }

  lemma {:induction false} NothingLost(ss: seq<Loop>, acts: seq<Action>, i: nat)
    requires IsRun(ss, acts) && i <= |acts| && forall j :: 0 <= j < i ==> !acts[j].TickThrows?
    ensures ss[i].ledger.lost == multiset{}
  {
    hide Next, Enabled, Act, Ready;
    if i == 0 {
      RunStart(ss, acts);
    } else {
      NothingLost(ss, acts, i - 1);
      RunAct(ss, acts, i - 1);
      ActLosesNothing(ss[i - 1], acts[i - 1]);
    }
  }

  /** In every run in which the host's logger does not throw, nothing admitted vanishes: it is in the tick's hands,
      held back, aboard an undecided turn, in a started turn, dead-lettered, or fresh in a failed one. */
  lemma NothingVanishes(ss: seq<Loop>, acts: seq<Action>, i: nat)
    requires IsRun(ss, acts) && i <= |acts| && forall j :: 0 <= j < i ==> !acts[j].TickThrows?
    ensures
      var s := ss[i];
      && s.stash.Valid()
      && s.ledger.admitted == Places(s) + s.ledger.merged
      && (forall k :: k in s.ledger.admitted ==> k in Places(s))
  {
    EverythingIsAccounted(ss, acts, i);
    NothingLost(ss, acts, i);
    assert Places(ss[i]) + multiset{} == Places(ss[i]);
  }

  /** A message admitted once is in exactly one place. */
  lemma ExactlyOnePlace(ss: seq<Loop>, acts: seq<Action>, i: nat, k: HeldKey)
    requires IsRun(ss, acts) && i <= |acts| && ss[i].ledger.admitted[k] == 1
    ensures ss[i].stash.Valid()
    ensures InHands(ss[i])[k] + Held(ss[i].stash)[k] + Aboard(ss[i].phase)[k] + ss[i].ledger.started[k]
          + ss[i].ledger.dead[k] + ss[i].ledger.failed[k] + ss[i].ledger.lost[k] == 1
  {
    EverythingIsAccounted(ss, acts, i);
  }
}
