/** When a peer message wakes the agent. One conversation's latch, as long as the other conversations do not push it out
    of the bounded maps, is open exactly while fewer wakes than the budget have been counted since it was last re-opened,
    and a progress signal re-opens it exactly while fewer than PROGRESS_REFRESH_MAX did so within the window. */
module LatchAnswers {
  import opened OrderedMaps
  import opened PeerLatch

  /** What one conversation's own events come to: wakes since the latch was last re-opened, and when signals re-opened it. */
  datatype Gauge = Gauge(wakes: nat, honoured: seq<int>)

  /** How many of `stamps` lie within the window before `now`. */
  function Within(stamps: seq<int>, now: int): nat {
    if stamps == [] then 0
    else Within(stamps[..|stamps| - 1], now) + (if now - stamps[|stamps| - 1] < PROGRESS_REFRESH_WINDOW_MS then 1 else 0)
  }

  function Moved(g: Gauge, e: Event): Gauge {
    match e
    case PeerMessage(_, budget, _) => if budget <= 0 then g.(wakes := 0) else if g.wakes < budget then g.(wakes := g.wakes + 1) else g
    case Progress(_, failed, now) =>
      if !failed && Within(g.honoured, now) < PROGRESS_REFRESH_MAX then Gauge(0, g.honoured + [now]) else g
    case Engaged(_, _) => g.(wakes := 0)
  }

  function GaugeOf(es: seq<Event>, conv: string): Gauge {
    if es == [] then Gauge(0, [])
    else
      var g, e := GaugeOf(es[..|es| - 1], conv), es[|es| - 1];
      if e.conv == conv then Moved(g, e) else g
  }

  // ---------------------------------------------------------------------
  // One step
  // ---------------------------------------------------------------------

  ghost predicate Bounded(l: Latches) {
    Valid(l) && |l.turns.keys| <= LATCH_CONVERSATION_CAP && |l.refreshes.keys| <= LATCH_CONVERSATION_CAP
  }

  /** An event of another conversation does not push this one out of either map. */
  ghost predicate Spares(l: Latches, e: Event, conv: string) {
    e.conv != conv ==>
      && (conv in l.turns.at ==> conv in Next(l, e).turns.at)
      && (conv in l.refreshes.at ==> conv in Next(l, e).refreshes.at)
  }

  lemma SetSize<V>(m: OMap<string, V>, k: string, v: V, cap: nat)
    requires m.Valid() && |m.keys| <= cap && cap > 1
    ensures var r := m.Set(k, v).EvictTo(cap); r.Valid() && |r.keys| <= cap && k in r.at && r.at[k] == v
  {
    var s := m.Set(k, v);
    if |s.keys| > cap {
      assert s.keys == m.keys + [k];
      assert s.EvictTo(cap) == s.DropOldest();
      assert s.keys[0] == m.keys[0] && m.keys[0] in m.keys;
    }
  }

  lemma RemoveSize<V>(m: OMap<string, V>, k: string)
    requires m.Valid()
    ensures |m.Remove(k).keys| <= |m.keys|
  {
  }

  lemma NotedOwn(l: Latches, conv: string, now: int)
    requires Bounded(l)
    ensures
      var r := Noted(l, conv, now);
      && Bounded(r) && r.turns == l.turns
      && Stamps(r, conv) == Recent(Stamps(l, conv), now) + (if MayRefresh(l, conv, now) then [now] else [])
  {
    var recent := Recent(Stamps(l, conv), now);
    if MayRefresh(l, conv, now) {
      SetSize(l.refreshes, conv, recent + [now], LATCH_CONVERSATION_CAP);
    } else {
      assert conv in l.refreshes.at;
      assert recent + [] == recent;
    }
  }

  lemma WokenOwn(l: Latches, conv: string, budget: int)
    requires Bounded(l)
    ensures
      var r := Wake(l, conv, budget);
      && Bounded(r) && r.refreshes == l.refreshes
      && Used(r, conv) == if budget <= 0 then 0 else if Used(l, conv) < budget then Used(l, conv) + 1 else Used(l, conv)
  {
    RemoveSize(l.turns, conv);
    SetSize(l.turns, conv, Used(l, conv) + 1, LATCH_CONVERSATION_CAP);
  }

  lemma SignalledOwn(l: Latches, conv: string, failed: bool, now: int)
    requires Bounded(l)
    ensures
      var r, ok := Signalled(l, conv, failed, now), !failed && MayRefresh(l, conv, now);
      && Bounded(r) && Used(r, conv) == (if ok then 0 else Used(l, conv))
      && Stamps(r, conv) == if failed then Stamps(l, conv) else Recent(Stamps(l, conv), now) + (if ok then [now] else [])
  {
    hide Noted, Recent;
    NotedOwn(l, conv, now);
    RemoveSize(Noted(l, conv, now).turns, conv);
  }

  lemma OtherTurns(l: Latches, c: string, conv: string)
    requires Bounded(l) && c != conv && (conv in l.turns.at ==> conv in Consumed(l, c).turns.at)
    ensures Bounded(Consumed(l, c)) && Used(Consumed(l, c), conv) == Used(l, conv)
  {
    SetSize(l.turns, c, Used(l, c) + 1, LATCH_CONVERSATION_CAP);
    if conv in Consumed(l, c).turns.at { SetThenEvict(l.turns, c, Used(l, c) + 1, LATCH_CONVERSATION_CAP, conv); }
  }

  lemma OtherNoted(l: Latches, c: string, now: int, conv: string)
    requires Bounded(l) && c != conv && (conv in l.refreshes.at ==> conv in Noted(l, c, now).refreshes.at)
    ensures Bounded(Noted(l, c, now)) && Noted(l, c, now).turns == l.turns && Stamps(Noted(l, c, now), conv) == Stamps(l, conv)
  {
    NotedOwn(l, c, now);
    if MayRefresh(l, c, now) && conv in Noted(l, c, now).refreshes.at {
      SetThenEvict(l.refreshes, c, Recent(Stamps(l, c), now) + [now], LATCH_CONVERSATION_CAP, conv);
    }
  }

  lemma OtherStep(l: Latches, e: Event, conv: string)
    requires Bounded(l) && e.conv != conv && Spares(l, e, conv)
    ensures Bounded(Next(l, e)) && Used(Next(l, e), conv) == Used(l, conv) && Stamps(Next(l, e), conv) == Stamps(l, conv)
  {
    hide Noted, Consumed;
    RemoveSize(l.turns, e.conv);
    match e
    case PeerMessage(c, budget, _) =>
      if LatchOpen(l, c, budget) && IsCapped(budget) { ConsumedKeepsRefreshes(l, c); OtherTurns(l, c, conv); }
    case Progress(c, failed, now) =>
      if !failed {
        OtherNoted(l, c, now, conv);
        RemoveSize(Noted(l, c, now).turns, c);
      }
    case Engaged(_, _) =>
  }

  lemma ConsumedKeepsRefreshes(l: Latches, c: string)
    ensures Consumed(l, c).refreshes == l.refreshes
  {
  }

  // ---------------------------------------------------------------------
  // Stamps
  // ---------------------------------------------------------------------

  lemma {:induction false} RecentCounts(stamps: seq<int>, now: int)
    ensures |Recent(stamps, now)| == Within(stamps, now)
  {
    if stamps != [] { RecentCounts(stamps[..|stamps| - 1], now); }
  }

  lemma RecentSnoc(stamps: seq<int>, t: int, now: int)
    ensures Recent(stamps + [t], now) == Recent(stamps, now) + (if now - t < PROGRESS_REFRESH_WINDOW_MS then [t] else [])
    ensures Recent(stamps, now) + [] == Recent(stamps, now)
  {
    assert (stamps + [t])[..|stamps|] == stamps;
  }

  /** Pruning once and again later is pruning later. */
  lemma {:induction false} RecentTwice(stamps: seq<int>, now: int, later: int)
    requires now <= later
    ensures Recent(Recent(stamps, now), later) == Recent(stamps, later)
  {
    if stamps != [] {
      hide Recent;
      var n := |stamps| - 1;
      var init, t := stamps[..n], stamps[n];
      assert stamps == init + [t];
      RecentTwice(init, now, later);
      RecentSnoc(init, t, now);
      RecentSnoc(init, t, later);
      RecentSnoc(Recent(init, now), t, later);
    } else {
      assert Recent([], now) == [] && Recent([], later) == [];
    }
  }

  ghost predicate Alike(stamps: seq<int>, honoured: seq<int>, later: int) {
    Recent(stamps, later) == Recent(honoured, later)
  }

  /** From `now` on, the latches prune to what the gauge does. */
  ghost predicate SameRecent(stamps: seq<int>, honoured: seq<int>, now: int) {
    forall later :: later >= now ==> Alike(stamps, honoured, later)
  }

  lemma SamePruned(stamps: seq<int>, honoured: seq<int>, last: int, now: int, ok: bool)
    requires SameRecent(stamps, honoured, last) && last <= now
    ensures SameRecent(Recent(stamps, now) + (if ok then [now] else []), if ok then honoured + [now] else honoured, now)
  {
    hide Recent;
    var pruned := Recent(stamps, now);
    var r, h := pruned + (if ok then [now] else []), if ok then honoured + [now] else honoured;
    forall later | later >= now ensures Alike(r, h, later) {
      assert Alike(stamps, honoured, later);
      RecentTwice(stamps, now, later);
      RecentSnoc(pruned, now, later);
      RecentSnoc(honoured, now, later);
      assert pruned + [] == pruned;
    }
  }

  // ---------------------------------------------------------------------
  // Over a run
  // ---------------------------------------------------------------------

  ghost predicate Matches(l: Latches, g: Gauge, conv: string, now: int) {
    Bounded(l) && Used(l, conv) == g.wakes && SameRecent(Stamps(l, conv), g.honoured, now)
  }

  lemma OwnStep(l: Latches, g: Gauge, e: Event, conv: string, last: int)
    requires Matches(l, g, conv, last) && last <= e.now && e.conv == conv
    ensures Matches(Next(l, e), Moved(g, e), conv, e.now)
  {
    hide Wake, Signalled, SameRecent, Stamps, Used;
    LaterMatches(l, g, conv, last, e.now);
    match e
    case PeerMessage(_, budget, _) => WokenOwn(l, conv, budget); SameStamps(l, Wake(l, conv, budget), conv);
    case Progress(_, failed, now) => OwnSignal(l, g, conv, failed, last, now);
    case Engaged(_, _) => ResetOwn(l, conv);
  }

  lemma SameStamps(l: Latches, r: Latches, conv: string)
    requires r.refreshes == l.refreshes
    ensures Stamps(r, conv) == Stamps(l, conv)
  {
  }

  lemma ResetOwn(l: Latches, conv: string)
    requires Bounded(l)
    ensures Bounded(Reset(l, conv)) && Used(Reset(l, conv), conv) == 0 && Stamps(Reset(l, conv), conv) == Stamps(l, conv)
  {
    RemoveSize(l.turns, conv);
  }

  lemma OwnSignal(l: Latches, g: Gauge, conv: string, failed: bool, last: int, now: int)
    requires Matches(l, g, conv, last) && last <= now
    ensures Matches(Signalled(l, conv, failed, now), Moved(g, Progress(conv, failed, now)), conv, now)
  {
    hide Recent, Signalled, Within, SameRecent, Stamps, Used;
    LaterMatches(l, g, conv, last, now);
    HonouredAlike(l, g, conv, now);
    SignalledOwn(l, conv, failed, now);
    SamePruned(Stamps(l, conv), g.honoured, last, now, !failed && MayRefresh(l, conv, now));
  }

  lemma HonouredAlike(l: Latches, g: Gauge, conv: string, now: int)
    requires Matches(l, g, conv, now)
    ensures MayRefresh(l, conv, now) <==> Within(g.honoured, now) < PROGRESS_REFRESH_MAX
  {
    hide Recent, Within;
    assert Alike(Stamps(l, conv), g.honoured, now);
    RecentCounts(g.honoured, now);
  }

  lemma LaterMatches(l: Latches, g: Gauge, conv: string, last: int, now: int)
    requires Matches(l, g, conv, last) && last <= now
    ensures Matches(l, g, conv, now)
  {
    hide Recent;
  }

  ghost predicate Clocked(es: seq<Event>, until: int) {
    es == [] || (es[|es| - 1].now <= until && Clocked(es[..|es| - 1], es[|es| - 1].now))
  }

  /** Along the run, no other conversation pushes this one out. */
  ghost predicate Spared(es: seq<Event>, conv: string) {
    es == [] || (Spared(es[..|es| - 1], conv) && Spares(After(EMPTY, es[..|es| - 1]), es[|es| - 1], conv))
  }

  lemma {:induction false} LatchMatchesGauge(es: seq<Event>, conv: string, now: int)
    requires Clocked(es, now) && Spared(es, conv)
    ensures Matches(After(EMPTY, es), GaugeOf(es, conv), conv, now)
  {
    if es == [] {
      assert Stamps(EMPTY, conv) == [];
    } else {
      hide Matches, Spares, Next, Moved;
      var init, e := es[..|es| - 1], es[|es| - 1];
      LatchMatchesGauge(init, conv, e.now);
      var l, g := After(EMPTY, init), GaugeOf(init, conv);
      StepMatches(l, g, e, conv);
      LaterMatches(Next(l, e), if e.conv == conv then Moved(g, e) else g, conv, e.now, now);
    }
  }

  lemma StepMatches(l: Latches, g: Gauge, e: Event, conv: string)
    requires Matches(l, g, conv, e.now) && Spares(l, e, conv)
    ensures Matches(Next(l, e), if e.conv == conv then Moved(g, e) else g, conv, e.now)
  {
    hide Next, Moved, Recent;
    if e.conv == conv { OwnStep(l, g, e, conv, e.now); } else { OtherStep(l, e, conv); }
  }

  /** A peer message wakes the agent if and only if its conversation has no cap, or fewer messages than the cap have woken
      it since the latch was last re-opened. */
  lemma WakesIffBelowTheCap(es: seq<Event>, conv: string, budget: int, now: int)
    requires Clocked(es, now) && Spared(es, conv)
    ensures Admits(After(EMPTY, es), PeerMessage(conv, budget, now), conv) <==> budget <= 0 || GaugeOf(es, conv).wakes < budget
  {
    hide Recent;
    LatchMatchesGauge(es, conv, now);
  }

  /** A progress signal re-opens its conversation's latch if and only if its own signature did not fail and fewer than
      PROGRESS_REFRESH_MAX signals have done so within the window. */
  lemma RefreshesIffWithinAllowance(es: seq<Event>, conv: string, failed: bool, now: int)
    requires Clocked(es, now) && Spared(es, conv)
    ensures
      Refreshes(After(EMPTY, es), Progress(conv, failed, now), conv)
      <==> !failed && Within(GaugeOf(es, conv).honoured, now) < PROGRESS_REFRESH_MAX
  {
    hide Recent;
    LatchMatchesGauge(es, conv, now);
    HonouredAlike(After(EMPTY, es), GaugeOf(es, conv), conv, now);
  }
}
