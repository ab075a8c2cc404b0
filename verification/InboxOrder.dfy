/** What the cached inbox holds. Over runs it is exactly the latest LAST_BATCH_CAP message ids delivered under the current
    context, in the order of their last delivery, and it is fresh exactly if a batch arrived under that context. */
module InboxOrder {
  import opened OrderedMaps
  import opened Messages
  import opened InboxRing

  // ---------------------------------------------------------------------
  // The order of last deliveries
  // ---------------------------------------------------------------------

  /** `ids`, with each id delivered moved to the young end; a message without an id is not cached. */
  function Redelivered(ids: seq<string>, ms: seq<Message>): seq<string> {
    if ms == [] then ids
    else
      var rest, id := Redelivered(ids, ms[..|ms| - 1]), ms[|ms| - 1].id;
      if id == "" then rest else Without(rest, id) + [id]
  }

  /** The context the cache is kept for: that of the last event but a read, which only opens an unopened one. */
  function ContextOf(es: seq<Event>): Option<Context> {
    if es == [] then None
    else
      var before, e := ContextOf(es[..|es| - 1]), es[|es| - 1];
      if e.IsRead? && before.Some? then before else Some(e.ctx)
  }

  /** The last event changed the context. */
  predicate Reopens(es: seq<Event>)
    requires es != []
  {
    !es[|es| - 1].IsRead? && ContextOf(es[..|es| - 1]) != Some(es[|es| - 1].ctx)
  }

  /** Every id delivered since the context last changed, in the order of its last delivery. */
  function Latest(es: seq<Event>): seq<string> {
    if es == [] then []
    else
      var e, before := es[|es| - 1], if Reopens(es) then [] else Latest(es[..|es| - 1]);
      if e.BatchArrives? then Redelivered(before, e.messages) else before
  }

  /** A batch has arrived since the context last changed. */
  predicate Arrived(es: seq<Event>) {
    es != [] && (es[|es| - 1].BatchArrives? || (!Reopens(es) && Arrived(es[..|es| - 1])))
  }

  // ---------------------------------------------------------------------
  // Trimming loses only the oldest
  // ---------------------------------------------------------------------

  lemma {:induction false} WithoutConcat(a: seq<string>, b: seq<string>, x: string)
    ensures Without(a + b, x) == Without(a, x) + Without(b, x)
  {
    if b == [] {
      assert a + b == a;
    } else {
      var n := |b| - 1;
      assert (a + b)[..|a + b| - 1] == a + b[..n];
      WithoutConcat(a, b[..n], x);
    }
  }

  /** `s` is the young end of `full`, and all of it unless it is `cap` long. */
  ghost predicate YoungEnd(s: seq<string>, full: seq<string>, cap: nat) {
    && NoDup(full) && |s| <= |full| && s == full[|full| - |s|..] && (|s| >= cap || s == full)
  }

  lemma SplitAt(p: seq<string>, s: seq<string>)
    ensures (p + s)[|p|..] == s && (p + s)[|p + s| - |s|..] == s
  {
  }

  lemma WithoutLength(s: seq<string>, id: string)
    requires NoDup(s)
    ensures |Without(s, id)| + 1 >= |s|
  {
    WithoutNoDup(s, id);
  }

  lemma AsSplit(s: seq<string>, full: seq<string>, cap: nat) returns (p: seq<string>)
    requires YoungEnd(s, full, cap)
    ensures full == p + s && NoDup(full) && NoDup(s) && (|s| >= cap || p == [])
  {
    p := full[..|full| - |s|];
    NoDupSuffix(full, |p|);
  }

  lemma FromSplit(p: seq<string>, s: seq<string>, cap: nat)
    requires NoDup(p + s) && (|s| >= cap || p == [])
    ensures YoungEnd(s, p + s, cap)
  {
    hide NoDup;
    SplitAt(p, s);
  }

  lemma MovedToEnd(s: seq<string>, full: seq<string>, cap: nat, id: string)
    requires YoungEnd(s, full, cap)
    ensures YoungEnd(Without(s, id) + [id], Without(full, id) + [id], cap)
  {
    hide YoungEnd, NoDup, Without;
    var p := AsSplit(s, full, cap);
    WithoutConcat(p, s, id);
    WithoutLength(s, id);
    WithoutNoDup(full, id);
    EndsDistinct(Without(full, id), id);
    assert Without(full, id) + [id] == Without(p, id) + (Without(s, id) + [id]);
    FromSplit(Without(p, id), Without(s, id) + [id], cap);
  }

  lemma EndsDistinct(s: seq<string>, x: string)
    requires NoDup(s) && x !in s
    ensures NoDup(s + [x])
  {
    assert (s + [x])[..|s|] == s;
  }

  lemma {:induction false} RedeliveredEnd(s: seq<string>, full: seq<string>, cap: nat, ms: seq<Message>)
    requires YoungEnd(s, full, cap)
    ensures YoungEnd(Redelivered(s, ms), Redelivered(full, ms), cap)
  {
    if ms != [] {
      hide YoungEnd;
      var n := |ms| - 1;
      RedeliveredEnd(s, full, cap, ms[..n]);
      MovedToEnd(Redelivered(s, ms[..n]), Redelivered(full, ms[..n]), cap, ms[n].id);
    }
  }

  lemma NewestEnd(s: seq<string>, full: seq<string>, cap: nat)
    requires YoungEnd(s, full, cap)
    ensures Newest(s, cap) == Newest(full, cap) && YoungEnd(Newest(s, cap), full, cap)
  {
  }

  // ---------------------------------------------------------------------
  // What each event does to the keys
  // ---------------------------------------------------------------------

  lemma {:induction false} RecordedKeys(c: Cache, ms: seq<Message>)
    ensures RecordMessages(c, ms).entries.keys == Redelivered(c.entries.keys, ms) && RecordMessages(c, ms).context == c.context
    ensures RecordMessages(c, ms).recorded == c.recorded
  {
    if ms != [] { RecordedKeys(c, ms[..|ms| - 1]); }
  }

  lemma {:induction false} EvictedKeys(m: Ring, cap: nat)
    ensures m.EvictTo(cap).keys == Newest(m.keys, cap)
    decreases |m.keys|
  {
    if |m.keys| > cap { EvictedKeys(m.DropOldest(), cap); }
  }

  ghost predicate SameKeys(c: Cache, r: Cache) {
    r.entries.keys == c.entries.keys && r.context == c.context && r.recorded == c.recorded && r.entries.at.Keys == c.entries.at.Keys
  }

  lemma {:induction false} AttachedKeys(c: Cache, bound: Verdicts, verdicts: map<string, Option<Verdict>>, ids: seq<string>)
    requires forall id :: id in ids ==> id in verdicts
    ensures SameKeys(c, AttachAll(c, bound, verdicts, ids))
  {
    if ids != [] {
      var n := |ids| - 1;
      AttachedKeys(c, bound, verdicts, ids[..n]);
      AttachKeys(AttachAll(c, bound, verdicts, ids[..n]), bound, verdicts[ids[n]], ids[n]);
    }
  }

  lemma AttachKeys(c: Cache, bound: Verdicts, computed: Option<Verdict>, id: string)
    ensures SameKeys(c, Attach(c, bound, computed, id))
  {
  }

  lemma {:induction false} MarkedKeys(c: Cache, rs: seq<Reject>)
    ensures SameKeys(c, MarkAll(c, rs))
  {
    if rs != [] {
      MarkedKeys(c, rs[..|rs| - 1]);
      MarkKeys(MarkAll(c, rs[..|rs| - 1]), rs[|rs| - 1]);
    }
  }

  lemma MarkKeys(c: Cache, r: Reject)
    ensures SameKeys(c, Mark(c, r))
  {
  }

  lemma JudgedKeys(c: Option<Cache>, e: Event)
    requires Stored(c) && ValidEvent(e) && e.VerdictsArrive?
    ensures Next(c, e).Some? && SameKeys(Opened(c, e.ctx), Next(c, e).value)
  {
    hide SameKeys, Opened;
    var vs := Admission(e.batch, e.results, e.rejected);
    var o := Opened(c, e.ctx);
    AttachedKeys(o, BatchVerdicts(e.batch, vs), vs, e.ids);
    MarkedKeys(AttachAll(o, BatchVerdicts(e.batch, vs), vs, e.ids), e.collected);
    SameKeysChain(o, AttachAll(o, BatchVerdicts(e.batch, vs), vs, e.ids), Next(c, e).value);
  }

  lemma SameKeysChain(a: Cache, b: Cache, c: Cache)
    requires SameKeys(a, b) && SameKeys(b, c)
    ensures SameKeys(a, c)
  {
  }

  // ---------------------------------------------------------------------
  // Over a run
  // ---------------------------------------------------------------------

  ghost predicate Holds(c: Option<Cache>, ctx: Option<Context>, latest: seq<string>, arrived: bool) {
    && (c.Some? <==> ctx.Some?) && NoDup(latest)
    && if c.None? then latest == [] && !arrived
       else c.value.context == ctx.value && c.value.recorded == arrived && c.value.entries.keys == Newest(latest, LAST_BATCH_CAP)
  }

  lemma OpenedHolds(c: Option<Cache>, before: Option<Context>, latest: seq<string>, arrived: bool, ctx: Context)
    requires Stored(c) && Holds(c, before, latest, arrived)
    ensures Holds(Some(Opened(c, ctx)), Some(ctx), if before != Some(ctx) then [] else latest, before == Some(ctx) && arrived)
  {
    hide KeepFailures;
  }

  lemma BatchHolds(o: Cache, c: Option<Cache>, ctx: Context, ms: seq<Message>, latest: seq<string>)
    requires Stored(c) && o == Opened(c, ctx) && NoDup(latest) && o.entries.keys == Newest(latest, LAST_BATCH_CAP)
    ensures
      var r := BatchRecorded(c, ctx, ms);
      && r.context == o.context && r.recorded
      && NoDup(Redelivered(latest, ms)) && r.entries.keys == Newest(Redelivered(latest, ms), LAST_BATCH_CAP)
  {
    hide Opened, NoDup, Redelivered, RecordMessages;
    var t := o.(recorded := true);
    RecordedKeys(t, ms);
    EvictedKeys(RecordMessages(t, ms).entries, LAST_BATCH_CAP);
    assert YoungEnd(latest, latest, LAST_BATCH_CAP);
    NewestEnd(latest, latest, LAST_BATCH_CAP);
    RedeliveredEnd(o.entries.keys, latest, LAST_BATCH_CAP, ms);
    NewestEnd(Redelivered(o.entries.keys, ms), Redelivered(latest, ms), LAST_BATCH_CAP);
  }

  lemma BatchStep(c: Option<Cache>, before: Option<Context>, latest: seq<string>, arrived: bool, ctx: Context, ms: seq<Message>)
    requires Stored(c) && Holds(c, before, latest, arrived)
    ensures Holds(Some(BatchRecorded(c, ctx, ms)), Some(ctx), Redelivered(if before != Some(ctx) then [] else latest, ms), true)
  {
    hide Opened, BatchRecorded, Redelivered, NoDup;
    OpenedHolds(c, before, latest, arrived, ctx);
    BatchHolds(Opened(c, ctx), c, ctx, ms, if before != Some(ctx) then [] else latest);
  }

  lemma JudgedStep(c: Option<Cache>, e: Event, before: Option<Context>, latest: seq<string>, arrived: bool)
    requires Stored(c) && ValidEvent(e) && e.VerdictsArrive? && Holds(c, before, latest, arrived)
    ensures Holds(Next(c, e), Some(e.ctx), if before != Some(e.ctx) then [] else latest, before == Some(e.ctx) && arrived)
  {
    hide Next, Opened, NoDup, ValidEvent;
    OpenedHolds(c, before, latest, arrived, e.ctx);
    JudgedKeys(c, e);
  }

  lemma ReadStep(c: Option<Cache>, before: Option<Context>, latest: seq<string>, arrived: bool, ctx: Context)
    requires Stored(c) && Holds(c, before, latest, arrived)
    ensures Holds(AfterRead(c, ctx), if before.Some? then before else Some(ctx), latest, arrived)
  {
    hide NoDup;
  }

  lemma NextHolds(c: Option<Cache>, es: seq<Event>)
    requires es != [] && Stored(c) && ValidEvent(es[|es| - 1])
    requires Holds(c, ContextOf(es[..|es| - 1]), Latest(es[..|es| - 1]), Arrived(es[..|es| - 1]))
    ensures Holds(Next(c, es[|es| - 1]), ContextOf(es), Latest(es), Arrived(es))
  {
    hide Opened, BatchRecorded, VerdictsRecorded, Redelivered, Holds, AfterRead;
    var e, init := es[|es| - 1], es[..|es| - 1];
    var before, latest, arrived := ContextOf(init), Latest(init), Arrived(init);
    match e
    case BatchArrives(ctx, ms) => BatchStep(c, before, latest, arrived, ctx, ms);
    case VerdictsArrive(_, _, _, _, _, _) => JudgedStep(c, e, before, latest, arrived);
    case Touched(ctx) => OpenedHolds(c, before, latest, arrived, ctx);
    case IsRead(ctx) => ReadStep(c, before, latest, arrived, ctx);
  }

  /** In every run the ring holds exactly the LAST_BATCH_CAP ids delivered last under its context, oldest delivery first; the
      context is that of the last event other than a read; and a batch is recorded as having arrived exactly if one has
      since that context was opened. */
  lemma {:induction false} RingHoldsTheLatest(cs: seq<Option<Cache>>, es: seq<Event>, i: nat)
    requires IsRun(cs, es) && i <= |es|
    ensures Holds(cs[i], ContextOf(es[..i]), Latest(es[..i]), Arrived(es[..i]))
  {
    hide Next, Holds;
    if i == 0 {
      StartHolds();
      assert es[..0] == [];
    } else {
      RingHoldsTheLatest(cs, es, i - 1);
      assert es[..i][..i - 1] == es[..i - 1];
      NextHolds(cs[i - 1], es[..i]);
      assert Stored(cs[i - 1]) && cs[i - 1 + 1] == Next(cs[i - 1], es[i - 1]);
    }
  }

  lemma StartHolds()
    ensures Holds(None, ContextOf([]), Latest([]), Arrived([]))
  {
  }

  /** What a reader on the cache's connection is told of its freshness: unavailable before any batch under the cache's
      context, current while its trust generation is the reader's, and stale otherwise. */
  lemma FreshnessIsTold(cs: seq<Option<Cache>>, es: seq<Event>, i: nat, ctx: Context)
    requires IsRun(cs, es) && i <= |es| && ContextOf(es[..i]).Some? && ContextOf(es[..i]).value.connection == ctx.connection
    ensures
      FreshnessOf(Viewed(cs[i], ctx), ctx)
      == if !Arrived(es[..i]) then Unavailable else if ContextOf(es[..i]).value.generation == ctx.generation then Current else Stale
  {
    hide Next, ContextOf, Latest, Arrived;
    RingHoldsTheLatest(cs, es, i);
  }
}
