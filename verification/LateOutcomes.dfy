/** What one completed tick of the synchronous loop does: every deferred message is held or on record, a covering turn
    clears exactly what it delivered, and servicing takes out exactly the stashes it was told to. */
module LateOutcomes {
  import opened OrderedMaps
  import opened Messages
  import opened Stashing
  import opened Covering
  import RL = ReplyLoop
  import opened LoopShape
  import opened LateDelivery

  ghost predicate HeldOrGone(q: Queue, n: nat, c: string, k: HeldKey) {
    (c in q.stash.at && k in EntryKeys(q.stash.at[c].entries)) || Gone(q, n, k)
  }

  lemma DeferHolds(q: Queue, g: RL.Group, vs: Verdicts, now: int, n: nat, k: HeldKey)
    requires Tidy(q.stash) && n <= |q.departed| && k in KeysOf(g.messages)
    ensures HeldOrGone(Defer(q, g, vs, now), n, g.conversation, k)
  {
    hide EvictionDrops, TidyStash, DropRecords;
    var d, c, es := q.stash, g.conversation, Ordered(q.stash, g.conversation, g.messages, vs, None);
    OrderedKeys(d, c, g.messages, vs, None);
    OverflowIsRecorded(c, es, k);
    SplitKeys(es, Overflow(|es|));
    StashKeepsNewest(d, c, g.messages, vs, now, None);
    if k !in EntryKeys(es[Overflow(|es|)..]) {
      OnRecordBefore(OverflowDrop(c, es), EvictionDrops(Restashed(d, c, g.messages, vs, now, None)), k);
      RecordedIsGone(q, Defer(q, g, vs, now), StashDrops(d, c, g.messages, vs, now, None), n, k);
    }
  }

  lemma DeferKeeps(q: Queue, g: RL.Group, vs: Verdicts, now: int, n: nat, c: string, k: HeldKey)
    requires Tidy(q.stash) && n <= |q.departed| && HeldOrGone(q, n, c, k)
    ensures HeldOrGone(Defer(q, g, vs, now), n, c, k)
  {
    hide StashAfter, StashDrops, TidyStash, DropRecords;
    var r, drops := Defer(q, g, vs, now), StashDrops(q.stash, g.conversation, g.messages, vs, now, None);
    if Gone(q, n, k) {
      StaysGone(q, r, n, k);
    } else {
      HeldOrRecorded(q.stash, g.conversation, g.messages, vs, now, None, c, k, q.stash.at[c].since);
      if OnRecord(drops, k) { RecordedIsGone(q, r, drops, n, k); }
    }
  }

  /** Every deferred message is in its conversation's stash or on a record, whatever else the tick defers. */
  lemma {:induction false} DeferredIsHeld(q: Queue, gs: seq<RL.Group>, vs: Verdicts, now: int, i: nat, k: HeldKey)
    requires Tidy(q.stash) && Filled(gs) && i < |gs| && k in KeysOf(gs[i].messages)
    ensures HeldOrGone(DeferAll(q, gs, vs, now), |q.departed|, gs[i].conversation, k)
  {
    hide Defer, HeldOrGone, TidyStash;
    var m := |gs| - 1;
    var p := DeferAll(q, gs[..m], vs, now);
    assert Filled(gs[..m]);
    DeferAllTidy(q, gs[..m], vs, now);
    DeferAllGrows(q, gs[..m], vs, now);
    if i == m {
      DeferHolds(p, gs[m], vs, now, |q.departed|, k);
    } else {
      DeferredIsHeld(q, gs[..m], vs, now, i, k);
      DeferKeeps(p, gs[m], vs, now, |q.departed|, gs[i].conversation, k);
    }
  }

  /** A covering turn that starts delivers every fresh message and every message held for the conversations of one, and
      clears exactly those stashes; one that does not start changes nothing. */
  lemma CoverClearsIffStarted(q: Queue, i: Input, c: string, m: Message, k: HeldKey)
    requires q.stash.Valid()
    ensures
      var r := RunCover(q, i);
      var taken := c in q.stash.at && q.stash.at[c].entries != [] && exists x :: x in i.floored && x.conversation == c;
      if i.floored != [] && i.coverStarts then
        && (c in r.stash.at <==> c in q.stash.at && !taken) && (c in r.stash.at ==> r.stash.at[c] == q.stash.at[c])
        && |r.departed| == |q.departed| + 1 && q.departed <= r.departed && r.departed[|q.departed|].fate == Started
        && (m in i.floored ==> KeyOf(m) in r.departed[|q.departed|].keys)
        && (taken && k in EntryKeys(q.stash.at[c].entries) ==> k in r.departed[|q.departed|].keys)
      else r == q
  {
    hide LoadFresh, LoadHeld, Cover;
    if i.floored != [] && i.coverStarts {
      var cs := CoveredBy(q.stash, i.floored);
      InConversations(i.floored, c);
      if m in i.floored { CargoHas(q.stash, i.floored, i.verdicts, i.generation, m); }
      if c in cs && k in EntryKeys(q.stash.at[c].entries) { HeldInCargo(q.stash, i.floored, i.verdicts, i.generation, c, k); }
    }
  }

  lemma InConversations(ms: seq<Message>, c: string)
    ensures c in ConversationsOf(ms) <==> exists x :: x in ms && x.conversation == c
  {
    if c in ConversationsOf(ms) {
      var i :| 0 <= i < |ms| && ConversationsOf(ms)[i] == c;
      assert ms[i] in ms;
    }
    if x :| x in ms && x.conversation == c {
      var i :| 0 <= i < |ms| && ms[i] == x;
      assert ConversationsOf(ms)[i] == c;
    }
  }

  /** The stash of `c` was taken out whole, and that is all it says of the others. */
  ghost predicate TakenOut(q: Queue, c: string, starts: bool, r: Queue) {
    && c in q.stash.at && c !in r.stash.at
    && (forall x :: x in r.stash.at <==> x in q.stash.at && x != c)
    && (forall x :: x in r.stash.at ==> r.stash.at[x] == q.stash.at[x])
    && r.departed == q.departed + [Departure(EntryKeys(q.stash.at[c].entries), if starts then Started else DeadLettered)]
  }

  lemma DeliverTakesOut(q: Queue, c: string, starts: bool)
    requires q.stash.Valid() && c in q.stash.at
    ensures TakenOut(q, c, starts, Deliver(q, c, starts))
  {
  }

  /** Servicing takes out an overdue stash deferred first, if there is one; and, if none was overdue or its turn did not
      start, the one retried stash whose floor was granted. Each goes to a started turn or on record, and nothing else
      moves. */
  lemma ServiceServes(q: Queue, i: Input)
    requires q.stash.Valid() && MayService(q, i)
    ensures
      var r := Service(q, i);
      if exists c :: c in q.stash.at && i.now - q.stash.at[c].since > i.ttl then
        && i.oldest in q.stash.at && i.now - q.stash.at[i.oldest].since > i.ttl
        && (forall x :: x in q.stash.at && i.now - q.stash.at[x].since > i.ttl ==> q.stash.at[i.oldest].since <= q.stash.at[x].since)
        && (if i.overrunStarts || i.retried == None then TakenOut(q, i.oldest, i.overrunStarts, r)
            else exists p :: TakenOut(q, i.oldest, false, p) && TakenOut(p, i.retried.value, i.retryStarts, r))
      else if i.retried.Some? then TakenOut(q, i.retried.value, i.retryStarts, r)
      else r == q
  {
    assert AnyExpired(q.stash, i) <==> exists c :: c in q.stash.at && i.now - q.stash.at[c].since > i.ttl;
    if AnyExpired(q.stash, i) {
      var p := Deliver(q, i.oldest, i.overrunStarts);
      DeliverTakesOut(q, i.oldest, i.overrunStarts);
      if !i.overrunStarts && i.retried.Some? { DeliverTakesOut(p, i.retried.value, i.retryStarts); }
    } else if i.retried.Some? {
      DeliverTakesOut(q, i.retried.value, i.retryStarts);
    }
  }

  /** A message that the tick's plan puts aboard a turn which starts has been delivered when the tick is over. */
  lemma TickDelivers(q: Queue, i: Input, r: Queue, m: Message)
    requires Tidy(q.stash) && Tick(q, i, r) && m in i.floored && i.coverStarts
    ensures exists n :: |q.departed| <= n < |r.departed| && r.departed[n].fate == Started && KeyOf(m) in r.departed[n].keys
  {
    hide DeferAll, RunCover, Service, TidyStash;
    var a := DeferAll(q, i.deferred, i.verdicts, i.now);
    DeferAllGrows(q, i.deferred, i.verdicts, i.now);
    CoverClearsIffStarted(a, i, m.conversation, m, KeyOf(m));
    ServiceGrows(RunCover(a, i), i);
    assert r.departed[|a.departed|] == RunCover(a, i).departed[|a.departed|];
  }

  /** A message that the plan defers is still held, or has left by a turn or a record, when the tick is over. */
  lemma TickLosesNoDeferred(q: Queue, i: Input, r: Queue, g: nat, k: HeldKey)
    requires Tidy(q.stash) && Tick(q, i, r) && g < |i.deferred| && k in KeysOf(i.deferred[g].messages)
    ensures HeldOrGone(r, |q.departed|, i.deferred[g].conversation, k)
  {
    hide DeferAll, RunCover, Service, TidyStash, MayService;
    var n, c := |q.departed|, i.deferred[g].conversation;
    var a := DeferAll(q, i.deferred, i.verdicts, i.now);
    DeferredIsHeld(q, i.deferred, i.verdicts, i.now, g, k);
    DeferAllGrows(q, i.deferred, i.verdicts, i.now);
    CoverKeeps(a, i, n, c, k);
    ServiceKeeps(RunCover(a, i), i, n, c, k);
  }

  lemma CoverKeeps(q: Queue, i: Input, n: nat, c: string, k: HeldKey)
    requires q.stash.Valid() && n <= |q.departed| && HeldOrGone(q, n, c, k)
    ensures HeldOrGone(RunCover(q, i), n, c, k) && q.departed <= RunCover(q, i).departed
  {
    if Gone(q, n, k) { StaysGone(q, RunCover(q, i), n, k); } else { CoverProgress(q, i, n, c, k, q.stash.at[c].since); }
  }

  lemma DeliverKeeps(q: Queue, x: string, starts: bool, n: nat, c: string, k: HeldKey)
    requires q.stash.Valid() && n <= |q.departed| && x in q.stash.at && HeldOrGone(q, n, c, k)
    ensures HeldOrGone(Deliver(q, x, starts), n, c, k)
  {
    if Gone(q, n, k) { StaysGone(q, Deliver(q, x, starts), n, k); } else { DeliverProgress(q, x, starts, n, c, k, q.stash.at[c].since); }
  }

  lemma ServiceKeeps(q: Queue, i: Input, n: nat, c: string, k: HeldKey)
    requires q.stash.Valid() && MayService(q, i) && n <= |q.departed| && HeldOrGone(q, n, c, k)
    ensures HeldOrGone(Service(q, i), n, c, k)
  {
    hide HeldOrGone;
    if AnyExpired(q.stash, i) {
      var p := Deliver(q, i.oldest, i.overrunStarts);
      DeliverKeeps(q, i.oldest, i.overrunStarts, n, c, k);
      if !i.overrunStarts && i.retried.Some? { DeliverKeeps(p, i.retried.value, i.retryStarts, n, c, k); }
    } else if i.retried.Some? {
      DeliverKeeps(q, i.retried.value, i.retryStarts, n, c, k);
    }
  }
}
