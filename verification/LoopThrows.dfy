/** What a host's throwing logger makes the reply loop forget.

    A tick whose logger throws is unwound by its own cleanup, which drops whatever only the tick knew of. */
module LoopThrows {
  import opened OrderedMaps
  import opened Messages
  import opened Stashing
  import opened Covering
  import opened ReplyLoop
  import opened LoopShape
  import opened LoopStop
  import opened LoopLedger

  /** What only the tick knew of when the logger threw. */
  ghost function AtRisk(s: Loop, a: Action, site: Site): Keys
    requires CanThrow(s, a, site)
  {
    match site
    case Reporting => if s.phase.CoverTurn? then multiset{} else InHands(s) + Aboard(s.phase)
    case Recorded => multiset{}
    case Announcing => Aboard(Act(s, a).phase)
    case Dropping(g, d) =>
      var q := FinalPlan(s, a);
      DroppedKeys(GroupDrops(s, q.deferred, g, s.phase.tick, a.now)[d..]) + GroupKeys(q.deferred[g + 1..]) + multiset(KeysOf(q.floored))
  }

  /** There is something: acked messages of a loop not stopped since, a held-back stash already taken out of the
      map, or a turn about to be spawned, or a drop about to be recorded. */
  predicate Loses(s: Loop, a: Action, site: Site) {
    match site
    case Reporting => (!s.stopped && InHand(s.phase) != []) || s.phase.OverrunTurn? || s.phase.RetryTurn?
    case Recorded => false
    case Announcing => true
    case Dropping(_, _) => true
  }

  lemma {:induction false} EvictionDropsFilled(d: Stashes)
    requires d.Valid() && forall c :: c in d.at ==> d.at[c].entries != []
    ensures forall i :: 0 <= i < |EvictionDrops(d)| ==> EvictionDrops(d)[i].messages != []
    decreases |d.keys|
  {
    if |d.keys| > CONVERSATION_CAP {
      assert d.keys[0] in d.keys;
      EvictionDropsFilled(d.DropOldest());
    }
  }

  lemma RestashedFilled(d: Stashes, c: string, msgs: seq<Message>, vs: Verdicts, now: int, gen: Option<Generation>)
    requires Tidy(d) && msgs != []
    ensures forall x :: x in Restashed(d, c, msgs, vs, now, gen).at ==> Restashed(d, c, msgs, vs, now, gen).at[x].entries != []
  {
    hide Ordered, Merged;
    OrderedKeys(d, c, msgs, vs, gen);
    MergedNotEmpty(d, c, msgs);
  }

  /** No drop is empty. */
  lemma DropsFilled(d: Stashes, c: string, msgs: seq<Message>, vs: Verdicts, now: int, gen: Option<Generation>)
    requires Tidy(d) && msgs != []
    ensures
      var drops := StashDrops(d, c, msgs, vs, now, gen);
      forall i :: 0 <= i < |drops| ==> drops[i].messages != []
  {
    hide Restashed, Ordered, EvictionDrops;
    RestashedFilled(d, c, msgs, vs, now, gen);
    EvictionDropsFilled(Restashed(d, c, msgs, vs, now, gen));
  }

  lemma SomeDropped(drops: seq<Drop>, d: nat)
    requires d < |drops| && drops[|drops| - 1].messages != []
    ensures DroppedKeys(drops[d..]) != multiset{}
  {
    var tail, m := drops[d..], drops[|drops| - 1].messages;
    assert tail[|tail| - 1].messages == m;
    assert KeyOf(m[0]) == KeysOf(m)[0] && KeyOf(m[0]) in multiset(KeysOf(m));
    assert KeyOf(m[0]) in DroppedKeys(tail);
  }

  lemma DroppingLoses(s: Loop, a: Action, g: nat, d: nat)
    requires Shape(s) && CanDrop(s, a, g, d)
    ensures DroppedKeys(GroupDrops(s, FinalPlan(s, a).deferred, g, s.phase.tick, a.now)[d..]) != multiset{}
  {
    FinalPlanFilled(s, a);
    var q, t := FinalPlan(s, a), s.phase.tick;
    var gs := q.deferred;
    assert Filled(gs[..g]) && gs[g].messages != [] by { assert gs[g] in gs; }
    StashGroupsShape(s, gs[..g], t, a.now);
    DropsFilled(StashGroups(s, gs[..g], t, a.now).stash, gs[g].conversation, gs[g].messages, t.verdicts, a.now, Some(s.generation));
    SomeDropped(GroupDrops(s, gs, g, t, a.now), d);
  }

  lemma AboardSomething(p: Phase)
    requires Spawning(p) && Manned(p)
    ensures Aboard(p) != multiset{}
  {
    if p.CoverTurn? {
      assert KeysOf(p.floored)[0] in Aboard(p);
    } else {
      assert EntryKeys(p.late.entries)[0] in Aboard(p);
    }
  }

  lemma StashUpToLost(s: Loop, gs: seq<Group>, g: nat, d: nat, t: Tick, now: int)
    requires s.stash.Valid() && g < |gs| && d <= |GroupDrops(s, gs, g, t, now)|
    ensures StashUpTo(s, gs, g, d, t, now).ledger.lost == s.ledger.lost
  {
    StashGroupsLost(s, gs[..g], t, now);
  }

  lemma AbandonLoses(s: Loop, ks: Keys)
    requires s.stash.Valid()
    ensures Abandon(s, ks).ledger.lost == s.ledger.lost + ks
  {
  }

  lemma ReportingLoses(s: Loop, a: Action)
    requires Shape(s) && Ready(s, a) && Reports(s, a)
    ensures ThrownReporting(s, a).ledger.lost == s.ledger.lost + AtRisk(s, a, Reporting)
  {
    hide Abandon, EndTick, CoverFailed;
    assert KeysOf([]) == [];
    assert InHands(s) + multiset{} == InHands(s) && multiset{} + Aboard(s.phase) == Aboard(s.phase);
    match a
    case PollReturns(b, _) => ServiceLosesNothing(if s.stopped then s else s.(generation := b.generation), 0);
    case SpawnDecided(_, _) =>
      SpawnLosesNothing(s, false, 0);
      if s.phase.CoverTurn? {
        CoverEndShape(s, false);
        ServiceLosesNothing(CoverFailed(s), 0);
      } else {
        AbandonLoses(s.(effects := s.effects + [TurnEnded]), Aboard(s.phase));
      }
    case _ => AbandonLoses(s, multiset(KeysOf(s.unhanded)));
  }

  lemma AnnouncingLoses(s: Loop, a: Action)
    requires Shape(s) && CanThrow(s, a, Announcing)
    ensures ThrownAnnouncing(s, Act(s, a)).ledger.lost == s.ledger.lost + Aboard(Act(s, a).phase)
  {
    var r := Act(s, a);
    hide Act, Abandon, Ready;
    ActLosesNothing(s, a);
    AbandonLoses(r.(effects := r.effects[..|r.effects| - 1], turns := s.turns), Aboard(r.phase));
  }

  lemma DropLosesAtRisk(s: Loop, a: Action, g: nat, d: nat)
    requires Shape(s) && CanDrop(s, a, g, d) && CanThrow(s, a, Dropping(g, d))
    ensures ThrownDropping(s, a, g, d).ledger.lost == s.ledger.lost + AtRisk(s, a, Dropping(g, d))
  {
    hide Abandon, StashUpTo, GroupDrops, CanThrow;
    var q, t := FinalPlan(s, a), s.phase.tick;
    StashUpToLost(s, q.deferred, g, d, t, a.now);
    AbandonLoses(StashUpTo(s, q.deferred, g, d, t, a.now), AtRisk(s, a, Dropping(g, d)));
  }

  /** A thrown tick adds to the lost exactly what only it knew of. */
  lemma ThrowLosesAtRisk(s: Loop, a: Action, site: Site)
    requires Shape(s) && CanThrow(s, a, site)
    ensures Thrown(s, a, site).ledger.lost == s.ledger.lost + AtRisk(s, a, site)
  {
    hide ThrownReporting, ThrownAnnouncing, ThrownDropping, EndTick, Act, CanDrop;
    match site
    case Reporting => ReportingLoses(s, a);
    case Recorded => ServiceLosesNothing(HeldBackEnded(s, s.phase.late, false), 0);
    case Announcing => AnnouncingLoses(s, a);
    case Dropping(g, d) => DropLosesAtRisk(s, a, g, d);
  }

  lemma ReportingAtRisk(s: Loop, a: Action)
    requires Shape(s) && CanThrow(s, a, Reporting)
    ensures AtRisk(s, a, Reporting) != multiset{} <==> Loses(s, a, Reporting)
  {
    hide CanThrow;
    if s.phase.OverrunTurn? || s.phase.RetryTurn? {
      AboardSomething(s.phase);
    } else if s.unhanded != [] {
      assert KeysOf(s.unhanded)[0] in InHands(s);
    } else {
      assert KeysOf(s.unhanded) == [];
    }
  }

  /** Acked work is forgotten without a record in exactly these cases. */
  lemma ThrowLosesIff(s: Loop, a: Action, site: Site)
    requires Shape(s) && CanThrow(s, a, site)
    ensures Thrown(s, a, site).ledger.lost != s.ledger.lost <==> Loses(s, a, site)
  {
    hide Thrown;
    ThrowLosesAtRisk(s, a, site);
    match site
    case Reporting => ReportingAtRisk(s, a);
    case Recorded =>
    case Announcing =>
      ActShape(s, a);
      AboardSomething(Act(s, a).phase);
    case Dropping(g, d) => DroppingLoses(s, a, g, d);
  }

  /** A floor denied to a plan is such a case too: the loop not stopped, everything the tick acked is forgotten. */
  lemma DeniedFloorLosesMail(s: Loop, now: int)
    requires Shape(s) && !s.stopped && s.phase.Planning? && s.phase.plan.waiting != [] && s.phase.tick.kept != []
    ensures
      var a := FloorAnswers(Denied, now);
      && CanThrow(s, a, Reporting) && Loses(s, a, Reporting)
      && Thrown(s, a, Reporting).ledger.lost == s.ledger.lost + multiset(KeysOf(s.phase.tick.kept))
  {
    var a := FloorAnswers(Denied, now);
    assert Ready(s, a);
    ThrowLosesAtRisk(s, a, Reporting);
    assert InHands(s) + multiset{} == InHands(s);
  }

  lemma ThrowAtAck(s: Loop, ks: Keys)
    requires s.stash == EmptyMap() && !s.stopped && s.phase.Acking? && ks == multiset(KeysOf(s.unhanded)) && s.ledger.lost == multiset{}
    ensures
      var a := TickThrows(AckReturns(0), Reporting);
      Enabled(s, a) && Next(s, a).ledger == s.ledger.(lost := ks) && Next(s, a).stash == EmptyMap() && Next(s, a).unhanded == []
  {
    assert multiset{} + ks == ks;
  }

  /** It happens: any two peer messages in two conversations, acked by a request whose failure the logger will not
      take, are in no turn, no stash and no record. */
  lemma ThrowingLoggerLosesMail(x: Message, y: Message)
    requires x.kind == Peer && y.kind == Peer && x.conversation != y.conversation
    ensures exists s ::
      && Reachable(s) && s.phase.Idle? && s.stash == EmptyMap() && s.unhanded == []
      && s.ledger == EMPTY_LEDGER.(admitted := multiset{KeyOf(x), KeyOf(y)}, lost := multiset{KeyOf(x), KeyOf(y)})
  {
    var s := Next(Start("g").(phase := Polling), PollReturns(PairBatch(x, y), 0));
    PairReachesAck(x, y);
    PairIsAcked(x, y);
    var a := TickThrows(AckReturns(0), Reporting);
    ThrowAtAck(s, multiset(KeysOf(s.unhanded)));
    ReachableNext(s, a, Next(s, a));
  }
}
