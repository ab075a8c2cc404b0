/** The synchronous twin of the reply loop, as far as the deferred stash goes: one completed tick
    stashes what was deferred, runs the covering turn and services one deferred turn.

    The theorem is bounded late delivery: a held-back message whose stash has outlived the retry TTL
    is in a started turn or on a dead-letter record within CONVERSATION_CAP further completed ticks. */
module LateDelivery {
  import opened OrderedMaps
  import opened Messages
  import opened Stashing
  import opened Covering
  import opened ReplyLoop
  import opened LoopShape

  datatype Fate = Started | DeadLettered
  datatype Departure = Departure(keys: seq<HeldKey>, fate: Fate)

  /** The stash, and everything that has left it or passed it by. */
  datatype Queue = Queue(stash: Stashes, departed: seq<Departure>)

  /** What one completed tick is told: the clock and the retry window, the floor plan's outcome, whether each spawn started,
      which of several equally old expired stashes is listed first, and which retry got its floor. */
  datatype Input = Input(
    now: int, ttl: int, deferred: seq<Group>, floored: seq<Message>, verdicts: Verdicts, generation: Generation,
    coverStarts: bool, oldest: string, overrunStarts: bool, retried: Option<string>, retryStarts: bool)

  // ---------------------------------------------------------------------
  // One tick
  // ---------------------------------------------------------------------

  function DropRecords(drops: seq<Drop>): (r: seq<Departure>)
    ensures |r| == |drops|
    ensures forall i :: 0 <= i < |drops| ==> r[i] == Departure(KeysOf(drops[i].messages), DeadLettered)
  {
    seq(|drops|, i requires 0 <= i < |drops| => Departure(KeysOf(drops[i].messages), DeadLettered))
  }

  function Defer(q: Queue, g: Group, vs: Verdicts, now: int): (r: Queue)
    requires q.stash.Valid()
    ensures r.stash.Valid()
  {
    Queue(StashAfter(q.stash, g.conversation, g.messages, vs, now, None),
          q.departed + DropRecords(StashDrops(q.stash, g.conversation, g.messages, vs, now, None)))
  }

  function DeferAll(q: Queue, gs: seq<Group>, vs: Verdicts, now: int): (r: Queue)
    requires q.stash.Valid()
    ensures r.stash.Valid()
  {
    if gs == [] then q else Defer(DeferAll(q, gs[..|gs| - 1], vs, now), gs[|gs| - 1], vs, now)
  }

  /** The covering turn: its stashes are cleared only if it started. */
  function RunCover(q: Queue, i: Input): (r: Queue)
    requires q.stash.Valid()
    ensures r.stash.Valid()
  {
    if i.floored == [] || !i.coverStarts then q
    else
      var cargo := Cover(q.stash, i.floored, i.verdicts, i.generation);
      Queue(ClearAll(q.stash, CoveredBy(q.stash, i.floored)), q.departed + [Departure(KeysOf(cargo.messages), Started)])
  }

  function Deliver(q: Queue, c: string, starts: bool): (r: Queue)
    requires q.stash.Valid() && c in q.stash.at
    ensures r.stash.Valid()
  {
    Queue(q.stash.Remove(c), q.departed + [Departure(EntryKeys(q.stash.at[c].entries), if starts then Started else DeadLettered)])
  }

  /** Past the retry window, which the agent's configuration sets. */
  predicate Overdue(s: Stash, i: Input) {
    i.now - s.since > i.ttl
  }

  predicate AnyExpired(d: Stashes, i: Input) {
    exists c :: c in d.at && Overdue(d.at[c], i)
  }

  ghost predicate OldestExpired(d: Stashes, i: Input, c: string) {
    && c in d.at && Overdue(d.at[c], i)
    && forall x :: x in d.at && Overdue(d.at[x], i) ==> d.at[c].since <= d.at[x].since
  }

  ghost predicate Retryable(d: Stashes, i: Input, c: Option<string>) {
    c.Some? ==> c.value in d.at && !Overdue(d.at[c.value], i)
  }

  function Retry(q: Queue, i: Input): (r: Queue)
    requires q.stash.Valid() && (i.retried.Some? ==> i.retried.value in q.stash.at)
    ensures r.stash.Valid()
  {
    if i.retried.Some? then Deliver(q, i.retried.value, i.retryStarts) else q
  }

  /** At most one deferred turn starts: an expired stash first; the floor retry only if none did. */
  ghost function Service(q: Queue, i: Input): (r: Queue)
    requires q.stash.Valid() && MayService(q, i)
    ensures r.stash.Valid()
  {
    if AnyExpired(q.stash, i) then
      var r := Deliver(q, i.oldest, i.overrunStarts);
      if i.overrunStarts then r else Retry(r, i)
    else Retry(q, i)
  }

  ghost predicate MayService(q: Queue, i: Input)
    requires q.stash.Valid()
  {
    if AnyExpired(q.stash, i) then
      && OldestExpired(q.stash, i, i.oldest)
      && (!i.overrunStarts ==> Retryable(q.stash.Remove(i.oldest), i, i.retried))
    else Retryable(q.stash, i, i.retried)
  }

  function BeforeService(q: Queue, i: Input): (r: Queue)
    requires q.stash.Valid()
    ensures r.stash.Valid()
  {
    RunCover(DeferAll(q, i.deferred, i.verdicts, i.now), i)
  }

  ghost predicate Tick(q: Queue, i: Input, r: Queue)
    requires q.stash.Valid()
  {
    && Filled(i.deferred)
    && MayService(BeforeService(q, i), i)
    && r == Service(BeforeService(q, i), i)
  }

  /** A nondecreasing clock and one retry window. */
  ghost predicate Steady(ins: seq<Input>) {
    forall n :: 0 < n < |ins| ==> ins[n - 1].now <= ins[n].now && ins[n - 1].ttl == ins[n].ttl
  }

  /** From any tidy stash. A tick is defined on valid stashes, which every state of a run has (RunTidy). */
  ghost predicate IsRun(qs: seq<Queue>, ins: seq<Input>) {
    && |qs| == |ins| + 1 && Tidy(qs[0].stash)
    && (forall n :: 0 <= n < |ins| ==> qs[n].stash.Valid() ==> Tick(qs[n], ins[n], qs[n + 1]))
    && Steady(ins)
  }

  // ---------------------------------------------------------------------
  // A tick keeps the stash tidy
  // ---------------------------------------------------------------------

  lemma {:induction false} DeferAllTidy(q: Queue, gs: seq<Group>, vs: Verdicts, now: int)
    requires Tidy(q.stash) && Filled(gs)
    ensures Tidy(DeferAll(q, gs, vs, now).stash)
  {
    if gs != [] {
      var m := |gs| - 1;
      assert gs[m] in gs;
      DeferAllTidy(q, gs[..m], vs, now);
      StashStaysTidy(DeferAll(q, gs[..m], vs, now).stash, gs[m].conversation, gs[m].messages, vs, now, None);
    }
  }

  lemma {:induction false} WithoutIsShorter(ks: seq<string>, c: string)
    ensures |Without(ks, c)| <= |ks|
  {
    if ks != [] { WithoutIsShorter(ks[..|ks| - 1], c); }
  }

  lemma DeliverTidy(q: Queue, c: string, starts: bool)
    requires Tidy(q.stash) && c in q.stash.at
    ensures Tidy(Deliver(q, c, starts).stash)
  {
    WithoutIsShorter(q.stash.keys, c);
  }

  lemma ServiceTidy(q: Queue, i: Input)
    requires Tidy(q.stash) && MayService(q, i)
    ensures Tidy(Service(q, i).stash)
  {
    if AnyExpired(q.stash, i) {
      DeliverTidy(q, i.oldest, i.overrunStarts);
      var r := Deliver(q, i.oldest, i.overrunStarts);
      if !i.overrunStarts && i.retried.Some? { DeliverTidy(r, i.retried.value, i.retryStarts); }
    } else if i.retried.Some? {
      DeliverTidy(q, i.retried.value, i.retryStarts);
    }
  }

  lemma TickTidy(q: Queue, i: Input, r: Queue)
    requires Tidy(q.stash) && Tick(q, i, r)
    ensures Tidy(r.stash)
  {
    var a := DeferAll(q, i.deferred, i.verdicts, i.now);
    DeferAllTidy(q, i.deferred, i.verdicts, i.now);
    TidyClear(a.stash, CoveredBy(a.stash, i.floored));
    ServiceTidy(BeforeService(q, i), i);
  }

  lemma {:induction false} RunTidy(qs: seq<Queue>, ins: seq<Input>, n: nat)
    requires IsRun(qs, ins) && n <= |ins|
    ensures Tidy(qs[n].stash)
  {
    if n > 0 {
      RunTidy(qs, ins, n - 1);
      assert Tick(qs[n - 1], ins[n - 1], qs[n - 1 + 1]);
      TickTidy(qs[n - 1], ins[n - 1], qs[n]);
    }
  }

  /** The listing order of the asynchronous loop is one of the admitted ones. */
  lemma ListedOrderIsOldest(d: Stashes, i: Input)
    requires d.Valid() && i.ttl == RETRY_TTL_MS && ExpiredOrder(d, i.now) != []
    ensures OldestExpired(d, i, ExpiredOrder(d, i.now)[0])
  {
    var c := ExpiredOrder(d, i.now)[0];
    assert c in ExpiredOrder(d, i.now);
    forall x | x in d.at && Overdue(d.at[x], i) ensures d.at[c].since <= d.at[x].since {
      OldestGoesFirst(d, i.now, x);
    }
  }

  /** How many turns have started. */
  function Starts(ds: seq<Departure>): nat {
    if ds == [] then 0 else Starts(ds[..|ds| - 1]) + (if ds[|ds| - 1].fate == Started then 1 else 0)
  }

  lemma DeliverStarts(q: Queue, c: string, starts: bool)
    requires q.stash.Valid() && c in q.stash.at
    ensures Starts(Deliver(q, c, starts).departed) == Starts(q.departed) + (if starts then 1 else 0)
  {
    var r := Deliver(q, c, starts);
    assert r.departed[..|r.departed| - 1] == q.departed;
  }

  /** Servicing starts at most one deferred turn, in total across both paths. */
  lemma ServiceStartsAtMostOne(q: Queue, i: Input)
    requires q.stash.Valid() && MayService(q, i)
    ensures Starts(q.departed) <= Starts(Service(q, i).departed) <= Starts(q.departed) + 1
  {
    if AnyExpired(q.stash, i) {
      DeliverStarts(q, i.oldest, i.overrunStarts);
      var r := Deliver(q, i.oldest, i.overrunStarts);
      if !i.overrunStarts && i.retried.Some? { DeliverStarts(r, i.retried.value, i.retryStarts); }
    } else if i.retried.Some? {
      DeliverStarts(q, i.retried.value, i.retryStarts);
    }
  }

  // ---------------------------------------------------------------------
  // Following one message
  // ---------------------------------------------------------------------

  ghost predicate Holding(d: Stashes, c: string, k: HeldKey, t: int) {
    c in d.at && d.at[c].since == t && k in EntryKeys(d.at[c].entries)
  }

  ghost predicate Gone(q: Queue, n: nat, k: HeldKey) {
    exists i :: n <= i < |q.departed| && k in q.departed[i].keys
  }

  /** The stashes that may be served before one deferred at `t`. */
  ghost function Ahead(d: Stashes, c: string, t: int): set<string> {
    set x | x in d.at && x != c && d.at[x].since <= t
  }

  ghost predicate Progress(q: Queue, r: Queue, n: nat, c: string, k: HeldKey, t: int) {
    && q.departed <= r.departed
    && (Gone(r, n, k) || (Holding(r.stash, c, k, t) && Ahead(r.stash, c, t) <= Ahead(q.stash, c, t)))
  }

  lemma StaysGone(q: Queue, r: Queue, n: nat, k: HeldKey)
    requires q.departed <= r.departed && Gone(q, n, k)
    ensures Gone(r, n, k)
  {
    var i :| n <= i < |q.departed| && k in q.departed[i].keys;
    assert r.departed[i] == q.departed[i];
  }

  lemma ProgressChain(p: Queue, q: Queue, r: Queue, n: nat, c: string, k: HeldKey, t: int)
    requires Progress(p, q, n, c, k, t)
    requires q.departed <= r.departed
    requires Holding(q.stash, c, k, t) ==> Progress(q, r, n, c, k, t)
    ensures Progress(p, r, n, c, k, t)
  {
    if Gone(q, n, k) { StaysGone(q, r, n, k); }
  }

  ghost predicate OnRecord(drops: seq<Drop>, k: HeldKey) {
    exists i :: 0 <= i < |drops| && k in KeysOf(drops[i].messages)
  }

  lemma OnRecordAfter(front: seq<Drop>, drops: seq<Drop>, k: HeldKey)
    requires OnRecord(drops, k)
    ensures OnRecord(front + drops, k)
  {
    var i :| 0 <= i < |drops| && k in KeysOf(drops[i].messages);
    assert (front + drops)[|front| + i] == drops[i];
  }

  lemma OnRecordBefore(drops: seq<Drop>, back: seq<Drop>, k: HeldKey)
    requires OnRecord(drops, k)
    ensures OnRecord(drops + back, k)
  {
    var i :| 0 <= i < |drops| && k in KeysOf(drops[i].messages);
    assert (drops + back)[i] == drops[i];
  }

  lemma {:induction false} EvictedIsRecorded(d: Stashes, c: string, k: HeldKey)
    requires d.Valid() && c in d.at && c !in d.EvictTo(CONVERSATION_CAP).at && k in EntryKeys(d.at[c].entries)
    ensures OnRecord(EvictionDrops(d), k)
    decreases |d.keys|
  {
    var first := Drop(d.keys[0], MessagesOf(d.at[d.keys[0]].entries), Evicted);
    assert KeysOf(first.messages) == EntryKeys(d.at[d.keys[0]].entries);
    if d.keys[0] == c {
      assert OnRecord([first], k) by { assert [first][0] == first; }
      OnRecordBefore([first], EvictionDrops(d.DropOldest()), k);
    } else {
      EvictedIsRecorded(d.DropOldest(), c, k);
      OnRecordAfter([first], EvictionDrops(d.DropOldest()), k);
    }
  }

  lemma OverflowIsRecorded(c: string, es: seq<StashEntry>, k: HeldKey)
    requires k in EntryKeys(es)
    ensures k in EntryKeys(es[Overflow(|es|)..]) || OnRecord(OverflowDrop(c, es), k)
  {
    var ks, m := EntryKeys(es), Overflow(|es|);
    assert ks == ks[..m] + ks[m..];
    assert EntryKeys(es[m..]) == ks[m..];
    if k in ks[..m] {
      assert KeysOf(MessagesOf(es[..m])) == ks[..m];
      assert OverflowDrop(c, es)[0].messages == MessagesOf(es[..m]);
    }
  }

  lemma RestashedValues(d: Stashes, x: string, msgs: seq<Message>, vs: Verdicts, now: int, gen: Option<Generation>, c: string)
    requires d.Valid() && c in d.at
    ensures c in Restashed(d, x, msgs, vs, now, gen).at
    ensures c != x ==> Restashed(d, x, msgs, vs, now, gen).at[c] == d.at[c]
    ensures
      var es := Ordered(d, x, msgs, vs, gen);
      c == x ==> Restashed(d, x, msgs, vs, now, gen).at[c] == Stash(es[Overflow(|es|)..], d.at[c].since)
  {
  }

  lemma KeptOrOverflowed(d: Stashes, x: string, msgs: seq<Message>, vs: Verdicts, now: int, gen: Option<Generation>,
                         c: string, k: HeldKey, t: int)
    requires Tidy(d) && Holding(d, c, k, t)
    ensures
      || Holding(Restashed(d, x, msgs, vs, now, gen), c, k, t)
      || OnRecord(OverflowDrop(x, Ordered(d, x, msgs, vs, gen)), k)
  {
    RestashedValues(d, x, msgs, vs, now, gen, c);
    if c == x {
      OrderedHas(d, x, msgs, vs, gen, k);
      OverflowIsRecorded(x, Ordered(d, x, msgs, vs, gen), k);
    }
  }

  lemma OrderedHas(d: Stashes, x: string, msgs: seq<Message>, vs: Verdicts, gen: Option<Generation>, k: HeldKey)
    requires Tidy(d) && x in d.at && k in EntryKeys(d.at[x].entries)
    ensures k in EntryKeys(Ordered(d, x, msgs, vs, gen))
  {
    OrderedKeys(d, x, msgs, vs, gen);
    assert k in Merged(d, x, msgs);
  }

  lemma KeptOrEvicted(d: Stashes, c: string, k: HeldKey, t: int)
    requires d.Valid() && Holding(d, c, k, t)
    ensures Holding(d.EvictTo(CONVERSATION_CAP), c, k, t) || OnRecord(EvictionDrops(d), k)
  {
    if c in d.EvictTo(CONVERSATION_CAP).at { EvictionKeeps(d, CONVERSATION_CAP); } else { EvictedIsRecorded(d, c, k); }
  }

  /** A held message survives another stashing in its place, with its first deferral time, or is on record. */
  lemma HeldOrRecorded(d: Stashes, x: string, msgs: seq<Message>, vs: Verdicts, now: int, gen: Option<Generation>,
                       c: string, k: HeldKey, t: int)
    requires Tidy(d) && Holding(d, c, k, t)
    ensures Holding(StashAfter(d, x, msgs, vs, now, gen), c, k, t) || OnRecord(StashDrops(d, x, msgs, vs, now, gen), k)
  {
    var r, over := Restashed(d, x, msgs, vs, now, gen), OverflowDrop(x, Ordered(d, x, msgs, vs, gen));
    KeptOrOverflowed(d, x, msgs, vs, now, gen, c, k, t);
    if OnRecord(over, k) {
      OnRecordBefore(over, EvictionDrops(r), k);
    } else {
      KeptOrEvicted(r, c, k, t);
      if OnRecord(EvictionDrops(r), k) { OnRecordAfter(over, EvictionDrops(r), k); }
    }
  }

  lemma RecordedIsGone(q: Queue, r: Queue, drops: seq<Drop>, n: nat, k: HeldKey)
    requires r.departed == q.departed + DropRecords(drops) && OnRecord(drops, k) && n <= |q.departed|
    ensures Gone(r, n, k)
  {
    var i :| 0 <= i < |drops| && k in KeysOf(drops[i].messages);
    assert r.departed[|q.departed| + i] == DropRecords(drops)[i];
  }

  lemma DeferAhead(d: Stashes, r: Stashes, x: string, ks: seq<HeldKey>, now: int, c: string, t: int)
    requires KeptNewest(d, x, ks, now, r) && t < now
    ensures Ahead(r, c, t) <= Ahead(d, c, t)
  {
  }

  lemma DeferProgress(q: Queue, g: Group, vs: Verdicts, now: int, n: nat, c: string, k: HeldKey, t: int)
    requires Tidy(q.stash) && g.messages != [] && n <= |q.departed| && t < now
    requires Holding(q.stash, c, k, t)
    ensures Progress(q, Defer(q, g, vs, now), n, c, k, t)
  {
    var d, r, drops := q.stash, Defer(q, g, vs, now), StashDrops(q.stash, g.conversation, g.messages, vs, now, None);
    StashKeepsNewest(d, g.conversation, g.messages, vs, now, None);
    DeferAhead(d, r.stash, g.conversation, Merged(d, g.conversation, g.messages), now, c, t);
    HeldOrRecorded(d, g.conversation, g.messages, vs, now, None, c, k, t);
    if OnRecord(drops, k) { RecordedIsGone(q, r, drops, n, k); }
  }

  lemma {:induction false} DeferAllProgress(q: Queue, gs: seq<Group>, vs: Verdicts, now: int, n: nat, c: string, k: HeldKey, t: int)
    requires Tidy(q.stash) && Filled(gs) && n <= |q.departed| && t < now
    requires Holding(q.stash, c, k, t)
    ensures Tidy(DeferAll(q, gs, vs, now).stash) && Progress(q, DeferAll(q, gs, vs, now), n, c, k, t)
  {
    if gs != [] {
      var m := |gs| - 1;
      DeferAllProgress(q, gs[..m], vs, now, n, c, k, t);
      var p := DeferAll(q, gs[..m], vs, now);
      assert gs[m] in gs;
      StashStaysTidy(p.stash, gs[m].conversation, gs[m].messages, vs, now, None);
      if Holding(p.stash, c, k, t) { DeferProgress(p, gs[m], vs, now, n, c, k, t); }
      ProgressChain(q, p, Defer(p, gs[m], vs, now), n, c, k, t);
    }
  }

  lemma HeldInCargo(d: Stashes, floored: seq<Message>, vs: Verdicts, gen: Generation, c: string, k: HeldKey)
    requires d.Valid() && c in CoveredBy(d, floored) && k in EntryKeys(d.at[c].entries)
    ensures k in KeysOf(Cover(d, floored, vs, gen).messages)
  {
    CoverCarriesAll(d, floored, vs, gen);
    HeldEntriesHas(d.at, CoveredBy(d, floored), c, k);
  }

  lemma {:induction false} HeldEntriesHas(at: map<string, Stash>, cs: seq<string>, c: string, k: HeldKey)
    requires (forall x :: x in cs ==> x in at) && c in cs && k in EntryKeys(at[c].entries)
    ensures k in EntryKeys(HeldEntries(at, cs))
  {
    var m := |cs| - 1;
    var a, b := HeldEntries(at, cs[..m]), at[cs[m]].entries;
    assert EntryKeys(a + b) == EntryKeys(a) + EntryKeys(b);
    if c != cs[m] { HeldEntriesHas(at, cs[..m], c, k); }
  }

  lemma CoverProgress(q: Queue, i: Input, n: nat, c: string, k: HeldKey, t: int)
    requires q.stash.Valid() && n <= |q.departed| && Holding(q.stash, c, k, t)
    ensures Progress(q, RunCover(q, i), n, c, k, t)
  {
    var r := RunCover(q, i);
    if i.floored != [] && i.coverStarts && c in CoveredBy(q.stash, i.floored) {
      HeldInCargo(q.stash, i.floored, i.verdicts, i.generation, c, k);
      assert k in r.departed[|q.departed|].keys;
    }
  }

  lemma DeliverProgress(q: Queue, x: string, starts: bool, n: nat, c: string, k: HeldKey, t: int)
    requires q.stash.Valid() && x in q.stash.at && n <= |q.departed| && Holding(q.stash, c, k, t)
    ensures Progress(q, Deliver(q, x, starts), n, c, k, t)
    ensures x !in Ahead(Deliver(q, x, starts).stash, c, t)
  {
    var r := Deliver(q, x, starts);
    if x == c { assert k in r.departed[|q.departed|].keys; }
  }

  lemma RetryProgress(q: Queue, i: Input, n: nat, c: string, k: HeldKey, t: int)
    requires q.stash.Valid() && Retryable(q.stash, i, i.retried) && n <= |q.departed| && Holding(q.stash, c, k, t)
    ensures Progress(q, Retry(q, i), n, c, k, t)
  {
    if i.retried.Some? { DeliverProgress(q, i.retried.value, i.retryStarts, n, c, k, t); }
  }

  /** Servicing an expired stash either delivers this one or one that was ahead of it. */
  lemma ServiceAdvances(q: Queue, i: Input, n: nat, c: string, k: HeldKey, t: int)
    requires q.stash.Valid() && MayService(q, i) && n <= |q.departed|
    requires Holding(q.stash, c, k, t) && i.now - t > i.ttl >= 0
    ensures Progress(q, Service(q, i), n, c, k, t)
    ensures Gone(Service(q, i), n, k) || |Ahead(Service(q, i).stash, c, t)| < |Ahead(q.stash, c, t)|
  {
    assert Overdue(q.stash.at[c], i);
    var x, p, r := i.oldest, Deliver(q, i.oldest, i.overrunStarts), Service(q, i);
    DeliverProgress(q, x, i.overrunStarts, n, c, k, t);
    if !i.overrunStarts && Holding(p.stash, c, k, t) { RetryProgress(p, i, n, c, k, t); }
    ProgressChain(q, p, r, n, c, k, t);
    if !Gone(r, n, k) {
      if Gone(p, n, k) { StaysGone(p, r, n, k); }
      assert x != c;
      assert x in Ahead(q.stash, c, t);
      Smaller(Ahead(r.stash, c, t), Ahead(q.stash, c, t), x);
    }
  }

  lemma Smaller(a: set<string>, b: set<string>, x: string)
    requires a <= b && x in b && x !in a
    ensures |a| < |b|
  {
    assert a <= b - {x};
    SubsetSize(a, b - {x});
  }

  lemma {:induction false} SubsetSize(a: set<string>, b: set<string>)
    requires a <= b
    ensures |a| <= |b|
  {
    assert b == a + (b - a);
  }

  lemma BeforeServiceProgress(q: Queue, i: Input, n: nat, c: string, k: HeldKey, t: int)
    requires Tidy(q.stash) && Filled(i.deferred) && n <= |q.departed| && t < i.now && Holding(q.stash, c, k, t)
    ensures Progress(q, BeforeService(q, i), n, c, k, t)
  {
    var a := DeferAll(q, i.deferred, i.verdicts, i.now);
    DeferAllProgress(q, i.deferred, i.verdicts, i.now, n, c, k, t);
    if Holding(a.stash, c, k, t) { CoverProgress(a, i, n, c, k, t); }
    ProgressChain(q, a, RunCover(a, i), n, c, k, t);
  }

  /** One completed tick in which the stash has expired. */
  lemma TickAdvances(q: Queue, i: Input, r: Queue, n: nat, c: string, k: HeldKey, t: int)
    requires Tidy(q.stash) && Tick(q, i, r) && n <= |q.departed|
    requires Holding(q.stash, c, k, t) && i.now - t > i.ttl >= 0
    ensures Gone(r, n, k) || (Holding(r.stash, c, k, t) && |Ahead(r.stash, c, t)| < |Ahead(q.stash, c, t)|)
  {
    var b := BeforeService(q, i);
    BeforeServiceProgress(q, i, n, c, k, t);
    if Holding(b.stash, c, k, t) {
      ServiceAdvances(b, i, n, c, k, t);
      if !Gone(b, n, k) { SubsetSize(Ahead(b.stash, c, t), Ahead(q.stash, c, t)); }
    }
    if Gone(b, n, k) {
      ServiceGrows(b, i);
      StaysGone(b, r, n, k);
    }
  }

  lemma ServiceGrows(q: Queue, i: Input)
    requires q.stash.Valid() && MayService(q, i)
    ensures q.departed <= Service(q, i).departed
  {
  }

  // ---------------------------------------------------------------------
  // Bounded late delivery
  // ---------------------------------------------------------------------

  lemma {:induction false} LaterIsLater(ins: seq<Input>, a: nat, b: nat)
    requires a <= b < |ins| && Steady(ins)
    ensures ins[a].now <= ins[b].now && ins[a].ttl == ins[b].ttl
  {
    if a < b { LaterIsLater(ins, a, b - 1); }
  }

  /** Gone since `n`, or still held with at most `bound` stashes ahead. */
  ghost predicate Within(q: Queue, n: nat, c: string, k: HeldKey, t: int, bound: int) {
    n <= |q.departed| && (Gone(q, n, k) || (Holding(q.stash, c, k, t) && |Ahead(q.stash, c, t)| <= bound))
  }

  ghost predicate Advances(q: Queue, r: Queue, n: nat, c: string, k: HeldKey, t: int) {
    forall bound :: Within(q, n, c, k, t, bound) ==> Within(r, n, c, k, t, bound - 1)
  }

  lemma OneMoreTick(q: Queue, i: Input, r: Queue, n: nat, c: string, k: HeldKey, t: int)
    requires Tidy(q.stash) && Tick(q, i, r) && i.now - t > i.ttl >= 0
    ensures Advances(q, r, n, c, k, t)
  {
    TickGrows(q, i, r);
    if n <= |q.departed| {
      if Gone(q, n, k) {
        StaysGone(q, r, n, k);
      } else if Holding(q.stash, c, k, t) {
        TickAdvances(q, i, r, n, c, k, t);
      }
    }
  }

  lemma EveryTickAdvances(qs: seq<Queue>, ins: seq<Input>, from: nat, j: nat, n: nat, c: string, k: HeldKey, t: int)
    requires IsRun(qs, ins) && from <= j < |ins| && ins[from].now - t > ins[from].ttl >= 0
    ensures Advances(qs[j], qs[j + 1], n, c, k, t)
  {
    LaterIsLater(ins, from, j);
    RunTidy(qs, ins, j);
    OneMoreTick(qs[j], ins[j], qs[j + 1], n, c, k, t);
  }

  ghost predicate AllAdvance(qs: seq<Queue>, n: nat, c: string, k: HeldKey, t: int) {
    forall j :: 0 <= j < |qs| - 1 ==> Advances(qs[j], qs[j + 1], n, c, k, t)
  }

  lemma {:induction false} StepsAhead(qs: seq<Queue>, n: nat, c: string, k: HeldKey, t: int, bound: int)
    requires qs != [] && AllAdvance(qs, n, c, k, t)
    requires Within(qs[0], n, c, k, t, bound)
    ensures Within(qs[|qs| - 1], n, c, k, t, bound - (|qs| - 1))
  {
    if |qs| > 1 {
      var m := |qs| - 1;
      StepsAhead(qs[..m], n, c, k, t, bound);
      assert Advances(qs[m - 1], qs[m - 1 + 1], n, c, k, t);
    }
  }

  lemma {:induction false} DeferAllGrows(q: Queue, gs: seq<Group>, vs: Verdicts, now: int)
    requires q.stash.Valid()
    ensures q.departed <= DeferAll(q, gs, vs, now).departed
  {
    if gs != [] { DeferAllGrows(q, gs[..|gs| - 1], vs, now); }
  }

  lemma TickGrows(q: Queue, i: Input, r: Queue)
    requires Tidy(q.stash) && Tick(q, i, r)
    ensures q.departed <= r.departed
  {
    DeferAllGrows(q, i.deferred, i.verdicts, i.now);
    ServiceGrows(BeforeService(q, i), i);
  }

  lemma AheadBound(d: Stashes, c: string, t: int)
    requires Tidy(d) && c in d.at
    ensures |Ahead(d, c, t)| < CONVERSATION_CAP
  {
    KeyCount(d.keys);
    var all := set x | x in d.keys;
    assert c in all;
    SubsetSize(Ahead(d, c, t), all - {c});
  }

  lemma {:induction false} KeyCount(ks: seq<string>)
    ensures |set x | x in ks| <= |ks|
  {
    if ks == [] {
      assert (set x | x in ks) == {};
    } else {
      var n := |ks| - 1;
      KeyCount(ks[..n]);
      assert ks == ks[..n] + [ks[n]];
      assert (set x | x in ks) == (set x | x in ks[..n]) + {ks[n]};
    }
  }

  lemma StartsWithin(q: Queue, c: string, k: HeldKey)
    requires Tidy(q.stash) && c in q.stash.at && k in EntryKeys(q.stash.at[c].entries)
    ensures Within(q, |q.departed|, c, k, q.stash.at[c].since, CONVERSATION_CAP - 1)
  {
    AheadBound(q.stash, c, q.stash.at[c].since);
  }

  lemma PartAdvances(qs: seq<Queue>, ins: seq<Input>, from: nat, part: seq<Queue>, j: nat, n: nat, c: string, k: HeldKey, t: int)
    requires IsRun(qs, ins) && from + |part| - 1 <= |ins| && j < |part| - 1 && ins[from].now - t > ins[from].ttl >= 0
    requires part == qs[from..from + |part|]
    ensures Advances(part[j], part[j + 1], n, c, k, t)
  {
    EveryTickAdvances(qs, ins, from, from + j, n, c, k, t);
  }

  lemma StretchAdvances(qs: seq<Queue>, ins: seq<Input>, from: nat, part: seq<Queue>, n: nat, c: string, k: HeldKey, t: int)
    requires IsRun(qs, ins) && from + |part| - 1 <= |ins| && from < |ins| && ins[from].now - t > ins[from].ttl >= 0
    requires part == qs[from..from + |part|]
    ensures AllAdvance(part, n, c, k, t)
  {
    forall j | 0 <= j < |part| - 1 ensures Advances(part[j], part[j + 1], n, c, k, t) {
      PartAdvances(qs, ins, from, part, j, n, c, k, t);
    }
  }

  lemma CapTicksOn(qs: seq<Queue>, ins: seq<Input>, from: nat, n: nat, c: string, k: HeldKey, t: int)
    requires IsRun(qs, ins) && from + CONVERSATION_CAP <= |ins| && ins[from].now - t > ins[from].ttl >= 0
    requires Within(qs[from], n, c, k, t, CONVERSATION_CAP - 1)
    ensures Within(qs[from + CONVERSATION_CAP], n, c, k, t, -1)
  {
    var part := qs[from..from + CONVERSATION_CAP + 1];
    StretchAdvances(qs, ins, from, part, n, c, k, t);
    StepsAhead(part, n, c, k, t, CONVERSATION_CAP - 1);
  }

  lemma NoneAhead(q: Queue, n: nat, c: string, k: HeldKey, t: int)
    requires Within(q, n, c, k, t, -1)
    ensures Gone(q, n, k)
  {
  }

  lemma HeldAtStart(qs: seq<Queue>, ins: seq<Input>, from: nat, c: string, k: HeldKey)
    requires IsRun(qs, ins) && from < |ins|
    requires c in qs[from].stash.at && k in EntryKeys(qs[from].stash.at[c].entries)
    ensures Within(qs[from], |qs[from].departed|, c, k, qs[from].stash.at[c].since, CONVERSATION_CAP - 1)
  {
    RunTidy(qs, ins, from);
    StartsWithin(qs[from], c, k);
  }

  /** A message held in a stash past the retry TTL has left it, by a started turn or a dead-letter record,
      after at most CONVERSATION_CAP further completed ticks, whatever new stashes arrive meanwhile. */
  lemma BoundedLateDelivery(qs: seq<Queue>, ins: seq<Input>, from: nat, c: string, k: HeldKey)
    requires IsRun(qs, ins) && from + CONVERSATION_CAP <= |ins|
    requires c in qs[from].stash.at && k in EntryKeys(qs[from].stash.at[c].entries)
    requires Overdue(qs[from].stash.at[c], ins[from]) && ins[from].ttl >= 0
    ensures Gone(qs[from + CONVERSATION_CAP], |qs[from].departed|, k)
  {
    var t, n := qs[from].stash.at[c].since, |qs[from].departed|;
    HeldAtStart(qs, ins, from, c, k);
    CapTicksOn(qs, ins, from, n, c, k, t);
    NoneAhead(qs[from + CONVERSATION_CAP], n, c, k, t);
  }
}
