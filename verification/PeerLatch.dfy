/** The per-conversation peer latch of the reply loop and the progress signals that refresh it.

    A peer message wakes the agent only while its conversation's count is below the cap; a handoff, claim or
    complete resets the count, at most PROGRESS_REFRESH_MAX times per conversation in a rolling window. */
module PeerLatch {
  import opened OrderedMaps

  const LATCH_CONVERSATION_CAP: nat := 500
  const PROGRESS_REFRESH_MAX: nat := 5
  const PROGRESS_REFRESH_WINDOW_MS: int := 60 * 60000

  /** Wakes counted per conversation, and when each conversation's budget was refreshed. */
  datatype Latches = Latches(turns: OMap<string, nat>, refreshes: OMap<string, seq<int>>)

  const EMPTY := Latches(EmptyMap(), EmptyMap())

  ghost predicate Valid(l: Latches) {
    l.turns.Valid() && l.refreshes.Valid()
  }

  /** A cap is a positive budget; anything else is no limit. */
  predicate IsCapped(budget: int) {
    budget > 0
  }

  function Used(l: Latches, conv: string): nat {
    if conv in l.turns.at then l.turns.at[conv] else 0
  }

  predicate LatchOpen(l: Latches, conv: string, budget: int) {
    !IsCapped(budget) || Used(l, conv) < budget
  }

  function Consumed(l: Latches, conv: string): Latches {
    l.(turns := l.turns.Set(conv, Used(l, conv) + 1).EvictTo(LATCH_CONVERSATION_CAP))
  }

  function Reset(l: Latches, conv: string): Latches {
    l.(turns := l.turns.Remove(conv))
  }

  /** One peer message at the latch; an uncapped conversation keeps no count. */
  function Wake(l: Latches, conv: string, budget: int): Latches {
    if !LatchOpen(l, conv, budget) then l
    else if IsCapped(budget) then Consumed(l, conv) else Reset(l, conv)
  }

  // ---------------------------------------------------------------------
  // Progress signals
  // ---------------------------------------------------------------------

  function Recent(stamps: seq<int>, now: int): seq<int> {
    if stamps == [] then []
    else Recent(stamps[..|stamps| - 1], now) + (if now - stamps[|stamps| - 1] < PROGRESS_REFRESH_WINDOW_MS then [stamps[|stamps| - 1]] else [])
  }

  function Stamps(l: Latches, conv: string): seq<int> {
    if conv in l.refreshes.at then l.refreshes.at[conv] else []
  }

  predicate MayRefresh(l: Latches, conv: string, now: int) {
    |Recent(Stamps(l, conv), now)| < PROGRESS_REFRESH_MAX
  }

  /** Record a refresh, or only prune once the window's allowance is spent. */
  function Noted(l: Latches, conv: string, now: int): Latches {
    var recent := Recent(Stamps(l, conv), now);
    if MayRefresh(l, conv, now) then l.(refreshes := l.refreshes.Set(conv, recent + [now]).EvictTo(LATCH_CONVERSATION_CAP))
    else l.(refreshes := l.refreshes.Set(conv, recent))
  }

  /** A signal whose own signature failed refreshes nothing. */
  function Signalled(l: Latches, conv: string, failed: bool, now: int): Latches {
    if failed then l
    else if MayRefresh(l, conv, now) then Reset(Noted(l, conv, now), conv) else Noted(l, conv, now)
  }

  // ---------------------------------------------------------------------
  // Runs
  // ---------------------------------------------------------------------

  /** `Engaged` is anything else that re-opens a latch: the operator, or a poll under which no cap applies. */
  datatype Event =
    | PeerMessage(conv: string, budget: int, now: int)
    | Progress(conv: string, failed: bool, now: int)
    | Engaged(conv: string, now: int)

  function Next(l: Latches, e: Event): Latches {
    match e
    case PeerMessage(conv, budget, _) => Wake(l, conv, budget)
    case Progress(conv, failed, now) => Signalled(l, conv, failed, now)
    case Engaged(conv, _) => Reset(l, conv)
  }

  function After(l: Latches, es: seq<Event>): Latches {
    if es == [] then l else Next(After(l, es[..|es| - 1]), es[|es| - 1])
  }

  predicate Admits(l: Latches, e: Event, conv: string) {
    e.PeerMessage? && e.conv == conv && LatchOpen(l, conv, e.budget)
  }

  function Admitted(l: Latches, es: seq<Event>, conv: string): nat {
    if es == [] then 0
    else Admitted(l, es[..|es| - 1], conv) + (if Admits(After(l, es[..|es| - 1]), es[|es| - 1], conv) then 1 else 0)
  }

  predicate Refreshes(l: Latches, e: Event, conv: string) {
    e.Progress? && e.conv == conv && !e.failed && MayRefresh(l, conv, e.now)
  }

  function Refreshed(l: Latches, es: seq<Event>, conv: string): nat {
    if es == [] then 0
    else Refreshed(l, es[..|es| - 1], conv) + (if Refreshes(After(l, es[..|es| - 1]), es[|es| - 1], conv) then 1 else 0)
  }

  /** An event inside the window `[from, from + PROGRESS_REFRESH_WINDOW_MS)`, with `conv` capped at `cap` and not
      engaged by the operator. */
  predicate Ordinary(e: Event, conv: string, cap: nat, from: int) {
    && from <= e.now < from + PROGRESS_REFRESH_WINDOW_MS
    && (e.PeerMessage? && e.conv == conv ==> e.budget == cap)
    && (e.Engaged? ==> e.conv != conv)
  }

  /** The step does not push `conv` out of either bounded map. */
  ghost predicate NotEvicted(l: Latches, e: Event, conv: string) {
    && (conv in l.turns.at && !Refreshes(l, e, conv) ==> conv in Next(l, e).turns.at)
    && (e.PeerMessage? && Admits(l, e, conv) ==> conv in Next(l, e).turns.at)
    && (conv in l.refreshes.at || Refreshes(l, e, conv) ==> conv in Next(l, e).refreshes.at)
  }

  ghost predicate Quiet(l: Latches, es: seq<Event>, conv: string, cap: nat, from: int) {
    es == [] || (
      && Quiet(l, es[..|es| - 1], conv, cap, from)
      && Ordinary(es[|es| - 1], conv, cap, from)
      && NotEvicted(After(l, es[..|es| - 1]), es[|es| - 1], conv))
  }

  // ---------------------------------------------------------------------
  // Refreshes are bounded
  // ---------------------------------------------------------------------

  function CountFrom(stamps: seq<int>, from: int): nat {
    if stamps == [] then 0 else CountFrom(stamps[..|stamps| - 1], from) + (if stamps[|stamps| - 1] >= from then 1 else 0)
  }

  lemma {:induction false} CountWithin(stamps: seq<int>, from: int)
    ensures CountFrom(stamps, from) <= |stamps|
  {
    if stamps != [] { CountWithin(stamps[..|stamps| - 1], from); }
  }

  lemma CountSnoc(stamps: seq<int>, t: int, from: int)
    ensures CountFrom(stamps + [t], from) == CountFrom(stamps, from) + (if t >= from then 1 else 0)
  {
    assert (stamps + [t])[..|stamps|] == stamps;
  }

  /** Pruning at a time inside the window drops no stamp of the window. */
  lemma {:induction false} PruningKeepsWindow(stamps: seq<int>, now: int, from: int)
    requires from <= now < from + PROGRESS_REFRESH_WINDOW_MS
    ensures CountFrom(Recent(stamps, now), from) == CountFrom(stamps, from)
  {
    if stamps != [] {
      var n := |stamps| - 1;
      PruningKeepsWindow(stamps[..n], now, from);
      var r := Recent(stamps[..n], now);
      CountSnoc(r, stamps[n], from);
      assert r + [] == r;
    }
  }

  // ---------------------------------------------------------------------
  // The maps of one step
  // ---------------------------------------------------------------------

  lemma NextValid(l: Latches, e: Event)
    requires Valid(l)
    ensures Valid(Next(l, e))
  {
  }

  lemma {:induction false} AfterValid(l: Latches, es: seq<Event>)
    requires Valid(l)
    ensures Valid(After(l, es))
  {
    if es != [] {
      AfterValid(l, es[..|es| - 1]);
      NextValid(After(l, es[..|es| - 1]), es[|es| - 1]);
    }
  }

  lemma SetThenEvict<V>(m: OMap<string, V>, k: string, v: V, cap: nat, conv: string)
    requires m.Valid() && conv in m.Set(k, v).EvictTo(cap).at
    ensures if conv == k then m.Set(k, v).EvictTo(cap).at[conv] == v else conv in m.at && m.Set(k, v).EvictTo(cap).at[conv] == m.at[conv]
  {
    EvictionKeeps(m.Set(k, v), cap);
  }

  lemma ConsumedCount(l: Latches, c: string, conv: string, r: OMap<string, nat>)
    requires Valid(l) && r == l.turns.Set(c, Used(l, c) + 1).EvictTo(LATCH_CONVERSATION_CAP)
    requires conv in l.turns.at || conv == c ==> conv in r.at
    ensures (if conv in r.at then r.at[conv] else 0) == if conv == c then Used(l, conv) + 1 else Used(l, conv)
  {
    if conv in r.at { SetThenEvict(l.turns, c, Used(l, c) + 1, LATCH_CONVERSATION_CAP, conv); }
  }

  /** What one step does to `conv`'s count, when it is not evicted. */
  lemma CountAfter(l: Latches, e: Event, conv: string, cap: nat, from: int)
    requires Valid(l) && cap >= 1 && Ordinary(e, conv, cap, from) && NotEvicted(l, e, conv)
    ensures Used(Next(l, e), conv)
         == (if Admits(l, e, conv) then Used(l, conv) + 1 else if Refreshes(l, e, conv) then 0 else Used(l, conv))
  {
    if e.PeerMessage? && LatchOpen(l, e.conv, e.budget) && IsCapped(e.budget) { ConsumedCount(l, e.conv, conv, Next(l, e).turns); }
  }

  lemma NotedStamps(l: Latches, c: string, now: int, conv: string)
    requires Valid(l) && (conv in l.refreshes.at || conv == c ==> conv in Noted(l, c, now).refreshes.at)
    ensures Stamps(Noted(l, c, now), conv)
         == (if conv != c then Stamps(l, conv)
             else Recent(Stamps(l, conv), now) + (if MayRefresh(l, conv, now) then [now] else []))
  {
    var recent := Recent(Stamps(l, c), now);
    if MayRefresh(l, c, now) {
      if conv in Noted(l, c, now).refreshes.at { SetThenEvict(l.refreshes, c, recent + [now], LATCH_CONVERSATION_CAP, conv); }
    } else {
      assert recent + [] == recent;
    }
  }

  /** A refresh adds its stamp to the window's, of which there were fewer than the allowance; pruning takes none. */
  lemma StampCount(stamps: seq<int>, now: int, from: int, ok: bool)
    requires from <= now < from + PROGRESS_REFRESH_WINDOW_MS && (ok <==> |Recent(stamps, now)| < PROGRESS_REFRESH_MAX)
    ensures CountFrom(Recent(stamps, now) + (if ok then [now] else []), from) == CountFrom(stamps, from) + (if ok then 1 else 0)
    ensures ok ==> CountFrom(stamps, from) < PROGRESS_REFRESH_MAX
  {
    var recent := Recent(stamps, now);
    PruningKeepsWindow(stamps, now, from);
    CountWithin(recent, from);
    CountSnoc(recent, now, from);
    assert recent + [] == recent;
  }

  /** What one step does to `conv`'s stamps of the window. */
  lemma StampsAfter(l: Latches, e: Event, conv: string, cap: nat, from: int)
    requires Valid(l) && Ordinary(e, conv, cap, from) && NotEvicted(l, e, conv)
    ensures CountFrom(Stamps(Next(l, e), conv), from)
         == CountFrom(Stamps(l, conv), from) + (if Refreshes(l, e, conv) then 1 else 0)
    ensures Refreshes(l, e, conv) ==> CountFrom(Stamps(l, conv), from) < PROGRESS_REFRESH_MAX
  {
    if e.Progress? && !e.failed {
      var m := Noted(l, e.conv, e.now);
      assert Next(l, e).refreshes == m.refreshes;
      if conv == e.conv && !MayRefresh(l, conv, e.now) { assert conv in m.refreshes.at; }
      NotedStamps(l, e.conv, e.now, conv);
      assert Stamps(Next(l, e), conv) == Stamps(m, conv);
      if e.conv == conv { StampCount(Stamps(l, conv), e.now, from, MayRefresh(l, conv, e.now)); }
    }
  }

  // ---------------------------------------------------------------------
  // The bound
  // ---------------------------------------------------------------------

  /** `n` times the cap. */
  function Caps(cap: nat, n: nat): nat {
    if n == 0 then 0 else Caps(cap, n - 1) + cap
  }

  /** `a` admissions and `r` refreshes so far: each refresh buys at most one more cap. A count above the cap,
      left by an earlier and larger one, only keeps the latch closed. */
  ghost predicate Within(used: nat, a: nat, r: nat, cap: nat) {
    a + (if used <= cap then cap - used else 0) <= Caps(cap, r + 1)
  }

  lemma StepWithin(l: Latches, e: Event, conv: string, cap: nat, from: int, a: nat, r: nat)
    requires Valid(l) && cap >= 1 && Ordinary(e, conv, cap, from) && NotEvicted(l, e, conv)
    requires Within(Used(l, conv), a, r, cap)
    ensures Within(Used(Next(l, e), conv), a + (if Admits(l, e, conv) then 1 else 0), r + (if Refreshes(l, e, conv) then 1 else 0), cap)
  {
    CountAfter(l, e, conv, cap, from);
  }

  /** Admissions and refreshes so far fit the count: what the induction over a run carries. */
  ghost predicate Tallied(l: Latches, es: seq<Event>, conv: string, cap: nat) {
    Within(Used(After(l, es), conv), Admitted(l, es, conv), Refreshed(l, es, conv), cap)
  }

  lemma TallyStep(l: Latches, es: seq<Event>, conv: string, cap: nat, from: int)
    requires Valid(l) && cap >= 1 && es != []
    requires Tallied(l, es[..|es| - 1], conv, cap)
    requires Ordinary(es[|es| - 1], conv, cap, from) && NotEvicted(After(l, es[..|es| - 1]), es[|es| - 1], conv)
    ensures Tallied(l, es, conv, cap)
  {
    hide Next, NotEvicted;
    var init, e := es[..|es| - 1], es[|es| - 1];
    AfterValid(l, init);
    StepWithin(After(l, init), e, conv, cap, from, Admitted(l, init, conv), Refreshed(l, init, conv));
  }

  lemma {:induction false} RunWithin(l: Latches, es: seq<Event>, conv: string, cap: nat, from: int)
    requires Valid(l) && cap >= 1 && Quiet(l, es, conv, cap, from)
    ensures Tallied(l, es, conv, cap)
  {
    if es == [] {
      assert Caps(cap, 1) == Caps(cap, 0) + cap;
    } else {
      RunWithin(l, es[..|es| - 1], conv, cap, from);
      TallyStep(l, es, conv, cap, from);
    }
  }

  lemma {:induction false} RefreshesBounded(l: Latches, es: seq<Event>, conv: string, cap: nat, from: int)
    requires Valid(l) && Quiet(l, es, conv, cap, from)
    ensures Refreshed(l, es, conv) + CountFrom(Stamps(l, conv), from) == CountFrom(Stamps(After(l, es), conv), from)
    ensures Refreshed(l, es, conv) <= PROGRESS_REFRESH_MAX
  {
    if es != [] {
      var n := |es| - 1;
      AfterValid(l, es[..n]);
      RefreshesBounded(l, es[..n], conv, cap, from);
      StampsAfter(After(l, es[..n]), es[n], conv, cap, from);
    }
  }

  lemma {:induction false} CapsGrow(cap: nat, m: nat, n: nat)
    requires m <= n
    ensures Caps(cap, m) <= Caps(cap, n)
  {
    if m < n { CapsGrow(cap, m, n - 1); }
  }

  lemma SixCaps(cap: nat)
    ensures Caps(cap, PROGRESS_REFRESH_MAX + 1) == (PROGRESS_REFRESH_MAX + 1) * cap
  {
    assert Caps(cap, 0) == 0;
    assert Caps(cap, 1) == cap;
    assert Caps(cap, 2) == 2 * cap;
    assert Caps(cap, 3) == 3 * cap;
    assert Caps(cap, 4) == 4 * cap;
    assert Caps(cap, 5) == 5 * cap;
  }

  /** While a conversation keeps one positive cap, is not engaged by the operator and is not evicted from the
      bounded maps: in any window of an hour at most (PROGRESS_REFRESH_MAX + 1) * cap of its peer messages wake
      the agent, however many progress signals arrive and whatever happens in other conversations. */
  lemma ProgressCannotDefeatTheCap(l: Latches, es: seq<Event>, conv: string, cap: nat, from: int)
    requires Valid(l) && cap >= 1 && Quiet(l, es, conv, cap, from)
    ensures Admitted(l, es, conv) <= (PROGRESS_REFRESH_MAX + 1) * cap
  {
    RunWithin(l, es, conv, cap, from);
    RefreshesBounded(l, es, conv, cap, from);
    CapsGrow(cap, Refreshed(l, es, conv) + 1, PROGRESS_REFRESH_MAX + 1);
    SixCaps(cap);
  }

  // ---------------------------------------------------------------------
  // The object
  // ---------------------------------------------------------------------

  class PeerLatchState {
    var peerTurnsByConversation: OMap<string, nat>
    var progressRefreshesByConversation: OMap<string, seq<int>>

    ghost function Value(): Latches
      reads this
    {
      Latches(peerTurnsByConversation, progressRefreshesByConversation)
    }

    constructor ()
      ensures Value() == EMPTY
    {
      peerTurnsByConversation, progressRefreshesByConversation := EmptyMap(), EmptyMap();
    }

    method ConsumePeerLatch(conv: string)
      modifies this
      ensures Value() == Consumed(old(Value()), conv)
    {
      var used := if conv in peerTurnsByConversation.at then peerTurnsByConversation.at[conv] else 0;
      peerTurnsByConversation := peerTurnsByConversation.Set(conv, used + 1);
      ghost var all := peerTurnsByConversation;
      while |peerTurnsByConversation.keys| > LATCH_CONVERSATION_CAP
        invariant peerTurnsByConversation.EvictTo(LATCH_CONVERSATION_CAP) == all.EvictTo(LATCH_CONVERSATION_CAP)
        invariant Value() == old(Value()).(turns := peerTurnsByConversation)
        decreases |peerTurnsByConversation.keys|
      {
        peerTurnsByConversation := peerTurnsByConversation.DropOldest();
      }
    }

    method ResetPeerLatch(conv: string)
      modifies this
      ensures Value() == Reset(old(Value()), conv)
    {
      peerTurnsByConversation := peerTurnsByConversation.Remove(conv);
    }

    method RecentStamps(conv: string, now: int) returns (recent: seq<int>)
      ensures recent == Recent(Stamps(Value(), conv), now)
    {
      var stamps := if conv in progressRefreshesByConversation.at then progressRefreshesByConversation.at[conv] else [];
      recent := [];
      for i := 0 to |stamps|
        invariant recent == Recent(stamps[..i], now)
      {
        assert stamps[..i + 1][..i] == stamps[..i];
        if now - stamps[i] < PROGRESS_REFRESH_WINDOW_MS { recent := recent + [stamps[i]]; }
      }
      assert stamps[..|stamps|] == stamps;
    }

    method NoteProgressRefresh(conv: string, now: int) returns (ok: bool)
      modifies this
      ensures ok == MayRefresh(old(Value()), conv, now)
      ensures Value() == Noted(old(Value()), conv, now)
    {
      var stamps := RecentStamps(conv, now);
      if |stamps| >= PROGRESS_REFRESH_MAX {
        progressRefreshesByConversation := progressRefreshesByConversation.Set(conv, stamps);
        return false;
      }
      progressRefreshesByConversation := progressRefreshesByConversation.Set(conv, stamps + [now]);
      ghost var all := progressRefreshesByConversation;
      while |progressRefreshesByConversation.keys| > LATCH_CONVERSATION_CAP
        invariant progressRefreshesByConversation.EvictTo(LATCH_CONVERSATION_CAP) == all.EvictTo(LATCH_CONVERSATION_CAP)
        invariant Value() == old(Value()).(refreshes := progressRefreshesByConversation)
        decreases |progressRefreshesByConversation.keys|
      {
        progressRefreshesByConversation := progressRefreshesByConversation.DropOldest();
      }
      ok := true;
    }

    /** Run a tick's latch and progress events in order; the peer messages that wake the agent are counted. */
    method Process(es: seq<Event>, conv: string) returns (woken: nat)
      modifies this
      ensures Value() == After(old(Value()), es)
      ensures woken == Admitted(old(Value()), es, conv)
    {
      woken := 0;
      for i := 0 to |es|
        invariant Value() == After(old(Value()), es[..i])
        invariant woken == Admitted(old(Value()), es[..i], conv)
      {
        assert es[..i + 1][..i] == es[..i];
        match es[i] {
          case PeerMessage(c, budget, _) =>
            var used := if c in peerTurnsByConversation.at then peerTurnsByConversation.at[c] else 0;
            if !IsCapped(budget) || used < budget {
              if IsCapped(budget) { ConsumePeerLatch(c); } else { ResetPeerLatch(c); }
              if c == conv { woken := woken + 1; }
            }
          case Progress(c, failed, now) =>
            if !failed {
              var ok := NoteProgressRefresh(c, now);
              if ok { ResetPeerLatch(c); }
            }
          case Engaged(c, _) => ResetPeerLatch(c);
        }
      }
      assert es[..|es|] == es;
    }
  }
}
