/** What a turn's outcome does. A turn that starts has delivered what it carried; a late one that does not start puts its
    stash on record and gives the other waiting conversations their chance; a covering one that does not start loses the
    fresh messages that no stash holds, and nothing else. */
module LoopTurns {
  import opened OrderedMaps
  import opened Messages
  import opened Stashing
  import opened Covering
  import opened ReplyLoop
  import opened LoopShape
  import opened LoopFloors
  import LoopLedger
  import LoopHeld

  /** Nothing started and nothing failed; nothing went on record either, unless the loop is stopped. */
  ghost predicate OnlyFlushed(s: Loop, r: Loop) {
    && r.ledger.started == s.ledger.started && r.ledger.failed == s.ledger.failed && s.ledger.dead <= r.ledger.dead
    && (!s.stopped ==> r.ledger.dead == s.ledger.dead)
  }

  lemma EndFlushes(s: Loop)
    requires s.stash.Valid()
    ensures OnlyFlushed(s, EndTick(s))
  {
  }

  lemma WalkFlushes(s: Loop, cs: seq<string>, now: int)
    requires s.stash.Valid()
    ensures OnlyFlushed(s, WalkRetries(s, cs, now))
  {
    hide EndTick;
    EndFlushes(s);
  }

  lemma ServiceFlushes(s: Loop, now: int)
    requires s.stash.Valid()
    ensures OnlyFlushed(s, ServiceDeferred(s, now))
  {
    hide EndTick, WalkRetries, StashLabels, SortBySince, ExpiredAmong, LiveAmong;
    EndFlushes(s);
    WalkFlushes(s, RetryOrder(s.stash, now), now);
    if ExpiredOrder(s.stash, now) != [] { assert ExpiredOrder(s.stash, now)[0] in ExpiredOrder(s.stash, now); }
  }

  /** Once a late turn's spawn is decided, each message it carried is counted as started if it started and goes on record if
      it did not, and no other message is or does. */
  lemma LateTurnIsDecided(s: Loop, a: Action, k: HeldKey)
    requires Shape(s) && Ready(s, a) && a.SpawnDecided? && !s.stopped && (s.phase.OverrunTurn? || s.phase.RetryTurn?)
    ensures
      var r, n := Act(s, a), multiset(EntryKeys(s.phase.late.entries))[k];
      && r.ledger.started[k] == s.ledger.started[k] + (if a.started then n else 0)
      && r.ledger.dead[k] == s.ledger.dead[k] + (if a.started then 0 else n)
      && r.ledger.failed == s.ledger.failed
  {
    hide EndTick, WalkRetries, TidyStash;
    var t := HeldBackEnded(s, s.phase.late, a.started);
    EndFlushes(t);
    if s.phase.OverrunTurn? { WalkFlushes(t, RetryOrder(t.stash, s.phase.at), s.phase.at); }
  }

  ghost predicate WaitsFor(d: Stashes, now: int, c: string) {
    c in d.at && now - d.at[c].since <= RETRY_TTL_MS
  }

  /** Every conversation still within the retry window, once, the longest wait first. */
  ghost predicate WaitingOrder(d: Stashes, now: int, cs: seq<string>) {
    NoDup(cs) && (forall c :: c in cs <==> WaitsFor(d, now, c)) && LongestWaitFirst(d.at, cs)
  }

  lemma RetryIsWaiting(d: Stashes, now: int)
    requires d.Valid()
    ensures WaitingOrder(d, now, RetryOrder(d, now))
  {
    hide NoDup, LongestWaitFirst, SortBySince, LiveAmong;
    var live := LiveAmong(d.at, d.keys, now);
    SortIsStable(d.at, live);
    LiveKeepsDistinct(d.at, d.keys, now);
    SameCountsNoDup(live, RetryOrder(d, now));
  }

  lemma WalkAsks(s: Loop, cs: seq<string>, now: int)
    requires s.stash.Valid() && !s.stopped
    ensures
      var r := WalkRetries(s, cs, now);
      if cs == [] then r.phase.Idle? else r.phase.RetryAsk? && r.phase.at == now && r.stash == s.stash && Asking(r) == cs
  {
    if cs != [] { assert [cs[0]] + cs[1..] == cs; }
  }

  /** When an overdue stash's turn does not start, the floor of each conversation still within the retry window is asked for,
      the longest wait first; with none, the tick is over. */
  lemma FailedOverrunAsks(s: Loop, a: Action)
    requires Shape(s) && Ready(s, a) && a.SpawnDecided? && !a.started && !s.stopped && s.phase.OverrunTurn?
    ensures
      var r, now := Act(s, a), s.phase.at;
      if exists c :: WaitsFor(s.stash, now, c) then
        r.phase.RetryAsk? && r.phase.at == now && r.stash == s.stash && WaitingOrder(s.stash, now, Asking(r))
      else r.phase.Idle?
  {
    hide TidyStash, RetryOrder, WalkRetries, WaitsFor, NoDup, LongestWaitFirst;
    var t, cs := HeldBackEnded(s, s.phase.late, false), RetryOrder(s.stash, s.phase.at);
    RetryIsWaiting(s.stash, s.phase.at);
    WalkAsks(t, cs, s.phase.at);
    if cs != [] { assert cs[0] in cs; }
  }

  lemma CoverEnds(s: Loop, started: bool)
    requires s.stash.Valid() && s.phase.CoverTurn?
    ensures
      var t, carried := if started then CoverStarted(s) else CoverFailed(s), multiset(KeysOf(s.phase.cargo.messages));
      && t.stash.Valid()
      && t.ledger.started == (if started then s.ledger.started + carried else s.ledger.started)
      && t.ledger.failed == if started then s.ledger.failed else s.ledger.failed + (carried - multiset(s.phase.cargo.late))
  {
  }

  lemma AfterCoverFlushes(s: Loop, floors: seq<string>, now: int)
    requires s.stash.Valid()
    ensures OnlyFlushed(s, AfterCoverTurn(s, floors, now))
  {
    hide EndTick, ServiceDeferred;
    EndFlushes(s);
    ServiceFlushes(s, now);
  }

  lemma Freshly(s: Loop, k: HeldKey)
    requires s.phase.CoverTurn? && LoopLedger.CoverLoaded(s.stash, s.phase.floored, s.phase.cargo, s.phase.covered)
    ensures
      (multiset(KeysOf(s.phase.cargo.messages)) - multiset(s.phase.cargo.late))[k] > 0
      <==> k in KeysOf(s.phase.floored) && k !in EntryKeys(HeldEntries(s.stash.at, s.phase.covered))
  {
    var held, late := multiset(EntryKeys(HeldEntries(s.stash.at, s.phase.covered))), multiset(s.phase.cargo.late);
    var carried, floored := multiset(KeysOf(s.phase.cargo.messages)), multiset(KeysOf(s.phase.floored));
    assert k in held <==> k in late;
    assert k in carried <==> k in held || k in floored;
    assert (carried - late)[k] > 0 ==> k in carried - late;
  }

  /** Once a covering turn's spawn is decided: if it started, all it carried counts as started, once each; if it did not,
      exactly those fresh messages are lost that no stash it covered holds. */
  lemma CoverTurnIsDecided(s: Loop, a: Action, k: HeldKey)
    requires Shape(s) && LoopLedger.Books(s) && Ready(s, a) && a.SpawnDecided? && s.phase.CoverTurn?
    requires forall c :: c in s.phase.covered ==> c in s.stash.at
    ensures
      var r := Act(s, a);
      && r.ledger.started[k] == s.ledger.started[k] + (if a.started then multiset(KeysOf(s.phase.cargo.messages))[k] else 0)
      && (r.ledger.failed[k] > s.ledger.failed[k]
          <==> !a.started && k in KeysOf(s.phase.floored) && k !in EntryKeys(HeldEntries(s.stash.at, s.phase.covered)))
  {
    hide CoverStarted, CoverFailed, AfterCoverTurn, TidyStash, LoopLedger.Booked, LoopLedger.Live, LoopLedger.CoverLoaded;
    var t := if a.started then CoverStarted(s) else CoverFailed(s);
    CoverEnds(s, a.started);
    AfterCoverFlushes(t, s.phase.floors, a.now);
    Freshly(s, k);
  }
}
