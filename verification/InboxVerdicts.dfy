/** Which verdict the cached inbox shows: the one computed for the very message it holds, the durable rejection of its
    material, or the tick's own rejection, and until when. */
module InboxVerdicts {
  import opened OrderedMaps
  import opened Messages
  import opened InboxRing

  // ---------------------------------------------------------------------
  // Attaching
  // ---------------------------------------------------------------------

  /** `m` is in the batch, and no other message of the batch claims its id. */
  ghost predicate Uncontested(batch: seq<Message>, m: Message) {
    (exists x :: x in batch && KeyOf(x) == KeyOf(m)) && forall x :: x in batch && x.id == m.id ==> KeyOf(x) == KeyOf(m)
  }

  lemma BoundFor(batch: seq<Message>, byId: map<string, Option<Verdict>>, m: Message)
    ensures VerdictFor(BatchVerdicts(batch, byId), m) == if Uncontested(batch, m) && m.id in byId then byId[m.id] else None
  {
    var k := KeyOf(m);
    if Uncontested(batch, m) {
      var x :| x in batch && KeyOf(x) == k;
      assert k in BatchVerdicts(batch, byId);
      assert !Contested(batch, k);
    } else if k in BatchVerdicts(batch, byId) {
      var x :| x in batch && KeyOf(x) == k;
      assert Contested(batch, k);
    }
  }

  /** The verdict an entry is given for `computed`: the durable rejection of its material comes first. */
  function Given(rejects: Rejects, m: Message, computed: Verdict): Option<Verdict> {
    if MaterialDigest(m) in rejects then Some(rejects[MaterialDigest(m)]) else Some(computed)
  }

  /** Attaching the computed verdicts: an entry whose own message the batch brought, uncontested, and for which a verdict
      was computed, gets it; every other entry keeps what it has. */
  ghost predicate Attached(c: Cache, batch: seq<Message>, verdicts: map<string, Option<Verdict>>, ids: seq<string>, r: Cache) {
    && r.context == c.context && r.rejects == c.rejects && r.entries.keys == c.entries.keys && r.entries.at.Keys == c.entries.at.Keys
    && forall id :: id in c.entries.at ==>
         var e := c.entries.at[id];
         r.entries.at[id] == Entry(e.message,
           if id in ids && id in verdicts && verdicts[id].Some? && Uncontested(batch, e.message) then Given(c.rejects, e.message, verdicts[id].value)
           else e.verification)
  }

  lemma AttachOne(c: Cache, batch: seq<Message>, verdicts: map<string, Option<Verdict>>, id: string, e: Entry)
    requires id in verdicts && id in c.entries.at && c.entries.at[id] == e && e.message.id == id
    ensures
      var r := Attach(c, BatchVerdicts(batch, verdicts), verdicts[id], id);
      r == if verdicts[id].Some? && Uncontested(batch, e.message) then
             c.(entries := c.entries.Set(id, Entry(e.message, Given(c.rejects, e.message, verdicts[id].value)))) else c
  {
    BoundFor(batch, verdicts, e.message);
  }

  lemma AttachOther(c: Cache, bound: Verdicts, computed: Option<Verdict>, id: string)
    requires id !in c.entries.at
    ensures Attach(c, bound, computed, id) == c
  {
  }

  ghost predicate Named(c: Cache) {
    forall id :: id in c.entries.at ==> c.entries.at[id].message.id == id
  }

  lemma {:induction false} AttachAllOutcome(c: Cache, batch: seq<Message>, verdicts: map<string, Option<Verdict>>, ids: seq<string>)
    requires Named(c) && forall id :: id in ids ==> id in verdicts
    ensures Attached(c, batch, verdicts, ids, AttachAll(c, BatchVerdicts(batch, verdicts), verdicts, ids))
  {
    if ids != [] {
      var n := |ids| - 1;
      AttachAllOutcome(c, batch, verdicts, ids[..n]);
      AttachStep(c, AttachAll(c, BatchVerdicts(batch, verdicts), verdicts, ids[..n]), batch, verdicts, ids);
    }
  }

  lemma AttachStep(c: Cache, m: Cache, batch: seq<Message>, verdicts: map<string, Option<Verdict>>, ids: seq<string>)
    requires Named(c) && ids != [] && (forall id :: id in ids ==> id in verdicts)
    requires Attached(c, batch, verdicts, ids[..|ids| - 1], m)
    ensures Attached(c, batch, verdicts, ids, Attach(m, BatchVerdicts(batch, verdicts), verdicts[ids[|ids| - 1]], ids[|ids| - 1]))
  {
    hide BatchVerdicts, Attach, Uncontested;
    var n := |ids| - 1;
    var last := ids[n];
    assert ids == ids[..n] + [last];
    if last in m.entries.at {
      AttachOne(m, batch, verdicts, last, m.entries.at[last]);
    } else {
      AttachOther(m, BatchVerdicts(batch, verdicts), verdicts[last], last);
    }
  }

  // ---------------------------------------------------------------------
  // Rejections
  // ---------------------------------------------------------------------

  /** The tick rejects the very message the entry holds. */
  predicate Hits(e: Entry, r: Reject) {
    e.message.id == r.message.id && (e.message == r.message || SameSignedMaterial(e.message, r.message))
  }

  /** The verdict of the last rejection that hits the entry. */
  ghost predicate LastHit(e: Entry, rs: seq<Reject>, v: Verdict) {
    exists i :: 0 <= i < |rs| && Hits(e, rs[i]) && rs[i].verdict == v && forall j :: i < j < |rs| ==> !Hits(e, rs[j])
  }

  ghost predicate NoHit(e: Entry, rs: seq<Reject>) {
    forall i :: 0 <= i < |rs| ==> !Hits(e, rs[i])
  }

  lemma {:induction false} MarkedEntry(c: Cache, rs: seq<Reject>, id: string)
    requires Named(c) && id in c.entries.at
    ensures Named(MarkAll(c, rs)) && id in MarkAll(c, rs).entries.at && MarkAll(c, rs).entries.keys == c.entries.keys
    ensures MarkAll(c, rs).context == c.context
    ensures
      var e, x := c.entries.at[id], MarkAll(c, rs).entries.at[id];
      && x.message == e.message
      && (NoHit(e, rs) ==> x == e)
      && (!NoHit(e, rs) ==> x.verification.Some? && LastHit(e, rs, x.verification.value))
  {
    if rs != [] {
      var n := |rs| - 1;
      var rest, e := rs[..n], c.entries.at[id];
      MarkedEntry(c, rest, id);
      MarkStep(MarkAll(c, rest), rs[n], id);
      var x := MarkAll(c, rs).entries.at[id];
      if Hits(e, rs[n]) {
        assert LastHit(e, rs, x.verification.value);
      } else if !NoHit(e, rest) {
        LastHitExtends(e, rs, x.verification.value);
      }
    }
  }

  lemma MarkStep(c: Cache, r: Reject, id: string)
    requires Named(c) && id in c.entries.at
    ensures
      var m, e := Mark(c, r), c.entries.at[id];
      && Named(m) && id in m.entries.at && m.entries.keys == c.entries.keys && m.context == c.context
      && m.entries.at[id] == if Hits(e, r) then Entry(e.message, Some(r.verdict)) else e
  {
  }

  lemma LastHitExtends(e: Entry, rs: seq<Reject>, v: Verdict)
    requires rs != [] && LastHit(e, rs[..|rs| - 1], v) && !Hits(e, rs[|rs| - 1])
    ensures LastHit(e, rs, v)
  {
    var rest := rs[..|rs| - 1];
    var i :| 0 <= i < |rest| && Hits(e, rest[i]) && rest[i].verdict == v && forall j :: i < j < |rest| ==> !Hits(e, rest[j]);
    forall j | i < j < |rs| ensures !Hits(e, rs[j]) { if j < |rest| { assert rest[j] == rs[j]; } }
    assert rs[i] == rest[i];
  }

  // ---------------------------------------------------------------------
  // One tick's verdicts
  // ---------------------------------------------------------------------

  /** What a tick leaves beside an entry: its own last rejection of the message; else, for a message of its batch whose id
      nothing else in the batch claims, the durable rejection of the material or the verdict computed for it; else what
      was there. */
  ghost predicate Settles(rejects: Rejects, e: Entry, batch: seq<Message>, verdicts: ById, rs: seq<Reject>, x: Entry) {
    && x.message == e.message
    && if !NoHit(e, rs) then x.verification.Some? && LastHit(e, rs, x.verification.value)
       else if e.message.id in verdicts.keys && e.message.id in verdicts.at && verdicts.at[e.message.id].Some? && Uncontested(batch, e.message)
       then x.verification == Given(rejects, e.message, verdicts.at[e.message.id].value)
       else x.verification == e.verification
  }

  lemma RecordedVerdict(c: Option<Cache>, ctx: Context, batch: seq<Message>, verdicts: ById, rs: seq<Reject>, id: string)
    requires Stored(c) && Named(Opened(c, ctx)) && (forall x :: x in verdicts.keys ==> x in verdicts.at)
    requires id in Opened(c, ctx).entries.at
    ensures
      var o, r := Opened(c, ctx), VerdictsRecorded(c, ctx, batch, verdicts, rs);
      && r.entries.keys == o.entries.keys && r.context == o.context && id in r.entries.at
      && Settles(o.rejects, o.entries.at[id], batch, verdicts, rs, r.entries.at[id])
  {
    hide BatchVerdicts, AttachAll, MarkAll, Uncontested, NoHit, LastHit, Opened;
    var o := Opened(c, ctx);
    var a := AttachAll(o, BatchVerdicts(batch, verdicts.at), verdicts.at, verdicts.keys);
    AttachAllOutcome(o, batch, verdicts.at, verdicts.keys);
    MarkedEntry(a, rs, id);
    SameHits(o.entries.at[id], a.entries.at[id], rs);
  }

  lemma SameHits(e: Entry, x: Entry, rs: seq<Reject>)
    requires e.message == x.message
    ensures NoHit(e, rs) <==> NoHit(x, rs)
    ensures forall v :: LastHit(e, rs, v) <==> LastHit(x, rs, v)
  {
    assert forall r :: Hits(e, r) <==> Hits(x, r);
  }

  // ---------------------------------------------------------------------
  // Until when
  // ---------------------------------------------------------------------

  /** The event may put something else in place of the entry: a change of context, a batch that brings the id again or
      more than the ring has room for, or another verdict or rejection for it. */
  ghost predicate Replaces(c: Cache, e: Event, ctx: Context, id: string) {
    match e
    case BatchArrives(x, ms) => x != ctx || (exists m :: m in ms && m.id == id) || |c.entries.keys| + |ms| > LAST_BATCH_CAP
    case VerdictsArrive(x, batch, results, rejected, ids, collected) =>
      x != ctx || id in ids || exists r :: r in collected && r.message.id == id
    case Touched(x) => x != ctx
    case IsRead(_) => false
  }

  lemma {:induction false} OthersRecorded(c: Cache, ms: seq<Message>, id: string)
    requires c.entries.Valid() && id in c.entries.at && forall m :: m in ms ==> m.id != id
    ensures
      var r := RecordMessages(c, ms);
      r.entries.Valid() && id in r.entries.at && r.entries.at[id] == c.entries.at[id] && r.context == c.context
      && |r.entries.keys| <= |c.entries.keys| + |ms|
  {
    if ms != [] {
      var n := |ms| - 1;
      assert ms == ms[..n] + [ms[n]];
      OthersRecorded(c, ms[..n], id);
      RecordOther(RecordMessages(c, ms[..n]), ms[n], id);
    }
  }

  lemma {:induction false} WithoutSize(ks: seq<string>, k: string)
    ensures |Without(ks, k)| <= |ks|
  {
    if ks != [] { WithoutSize(ks[..|ks| - 1], k); }
  }

  lemma RecordOther(c: Cache, m: Message, id: string)
    requires c.entries.Valid() && id in c.entries.at && m.id != id
    ensures
      var r := RecordMessage(c, m);
      r.entries.Valid() && id in r.entries.at && r.entries.at[id] == c.entries.at[id] && r.context == c.context
      && |r.entries.keys| <= |c.entries.keys| + 1
  {
    WithoutSize(c.entries.keys, m.id);
  }

  lemma StaysInPlace(c: Cache, e: Event, ctx: Context, id: string)
    requires c.entries.Valid() && Named(c) && c.context == ctx && id in c.entries.at && ValidEvent(e) && !Replaces(c, e, ctx, id)
    ensures
      var r := Next(Some(c), e);
      r.Some? && r.value.context == ctx && id in r.value.entries.at && r.value.entries.at[id] == c.entries.at[id]
  {
    match e
    case BatchArrives(x, ms) => OthersRecorded(c.(recorded := true), ms, id);
    case VerdictsArrive(x, batch, results, rejected, ids, collected) =>
      RecordedVerdict(Some(c), ctx, batch, OMap(ids, Admission(batch, results, rejected)), collected, id);
    case _ =>
  }

  lemma RunNamed(cs: seq<Option<Cache>>, es: seq<Event>, i: nat)
    requires IsRun(cs, es) && i <= |es|
    ensures cs[i].Some? ==> cs[i].value.entries.Valid() && Named(cs[i].value)
    ensures cs[i].Some? && !cs[i].value.recorded ==> cs[i].value.entries.keys == []
  {
    RingIsSound(cs, es, i);
  }

  /** No event of `(i, j)` may replace the entry. */
  ghost predicate LeftAlone(cs: seq<Option<Cache>>, es: seq<Event>, i: nat, j: nat, ctx: Context, id: string)
    requires j <= |es| && j < |cs|
  {
    forall n :: i <= n < j ==> cs[n].Some? && !Replaces(cs[n].value, es[n], ctx, id)
  }

  lemma {:induction false} EntryStays(cs: seq<Option<Cache>>, es: seq<Event>, i: nat, j: nat, ctx: Context, id: string)
    requires IsRun(cs, es) && i <= j <= |es| && cs[i].Some? && cs[i].value.context == ctx && id in cs[i].value.entries.at
    requires LeftAlone(cs, es, i, j, ctx, id)
    ensures cs[j].Some? && cs[j].value.context == ctx && id in cs[j].value.entries.at && cs[j].value.entries.at[id] == cs[i].value.entries.at[id]
  {
    if i < j {
      EntryStays(cs, es, i, j - 1, ctx, id);
      RunNamed(cs, es, j - 1);
      StaysInPlace(cs[j - 1].value, es[j - 1], ctx, id);
      assert cs[j - 1 + 1] == Next(cs[j - 1], es[j - 1]);
    }
  }

  lemma EntryIsViewed(c: Cache, ctx: Context, id: string)
    requires c.entries.Valid() && c.context == ctx && id in c.entries.at && (!c.recorded ==> c.entries.keys == [])
    ensures exists n :: 0 <= n < |View(Some(c), ctx)| && View(Some(c), ctx)[n] == c.entries.at[id]
  {
    var n :| 0 <= n < |c.entries.keys| && c.entries.keys[n] == id;
    assert View(Some(c), ctx)[n] == c.entries.at[id];
  }

  /** `x` is what the verdicts of `e` leave beside the entry for `id`. */
  ghost predicate Settled(c: Option<Cache>, e: Event, id: string, x: Entry)
    requires Stored(c) && e.VerdictsArrive? && |e.results| == |e.batch| && id in Opened(c, e.ctx).entries.at
  {
    Settles(Opened(c, e.ctx).rejects, Opened(c, e.ctx).entries.at[id], e.batch,
            OMap(e.ids, Admission(e.batch, e.results, e.rejected)), e.collected, x)
  }

  /** In every run: the verdicts of event `i` settle the entry the ring holds for `id`, and every reader of the same
      connection and generation is shown exactly that, with that message, until an event may replace it. */
  lemma VerdictIsShown(cs: seq<Option<Cache>>, es: seq<Event>, i: nat, j: nat, id: string)
    requires IsRun(cs, es) && i < j <= |es| && es[i].VerdictsArrive? && id in Opened(cs[i], es[i].ctx).entries.at && |es[i].results| == |es[i].batch|
    requires LeftAlone(cs, es, i + 1, j, es[i].ctx, id)
    ensures Stored(cs[j])
    ensures exists n :: 0 <= n < |View(cs[j], es[i].ctx)| && Settled(cs[i], es[i], id, View(cs[j], es[i].ctx)[n])
  {
    hide Settles, Next;
    var e, ctx := es[i], es[i].ctx;
    assert ValidEvent(e) && cs[i + 1] == Next(cs[i], e);
    RunNamed(cs, es, i);
    var vs := OMap(e.ids, Admission(e.batch, e.results, e.rejected));
    NextIsRecorded(cs[i], e);
    OpenedNamed(cs[i], ctx);
    RecordedVerdict(cs[i], ctx, e.batch, vs, e.collected, id);
    EntryStays(cs, es, i + 1, j, ctx, id);
    RunNamed(cs, es, j);
    EntryIsViewed(cs[j].value, ctx, id);
  }

  lemma NextIsRecorded(c: Option<Cache>, e: Event)
    requires Stored(c) && ValidEvent(e) && e.VerdictsArrive?
    ensures Next(c, e) == Some(VerdictsRecorded(c, e.ctx, e.batch, OMap(e.ids, Admission(e.batch, e.results, e.rejected)), e.collected))
  {
  }

  lemma OpenedNamed(c: Option<Cache>, ctx: Context)
    requires Stored(c) && (c.Some? ==> Named(c.value))
    ensures Named(Opened(c, ctx)) && Opened(c, ctx).context == ctx
  {
  }

  // ---------------------------------------------------------------------
  // Batches, contexts and readers
  // ---------------------------------------------------------------------

  /** Some failed entry of comparable material `d` is in the ring. */
  ghost predicate FailedEntry(c: Cache, d: Digest) {
    exists id :: id in c.entries.keys && id in c.entries.at && Failed(c.entries.at[id].verification)
      && MaterialDigest(c.entries.at[id].message) == d && !d.Uncomparable?
  }

  lemma {:induction false} FailuresKept(r: Rejects, ring: Ring, ids: seq<string>, d: Digest)
    requires forall id :: id in ids ==> id in ring.at
    ensures d in KeepFailures(r, ring, ids)
       <==> d in r || (exists id :: id in ids && Failed(ring.at[id].verification) && MaterialDigest(ring.at[id].message) == d && !d.Uncomparable?)
  {
    if ids != [] {
      var n := |ids| - 1;
      assert ids == ids[..n] + [ids[n]];
      FailuresKept(r, ring, ids[..n], d);
    }
  }

  /** A producer under the cache's own context finds it as it is; under another it finds an empty ring, with every
      rejection from before and the material of every entry that had failed. */
  lemma ContextOutcome(c: Cache, ctx: Context, d: Digest)
    requires c.entries.Valid()
    ensures c.context == ctx ==> Opened(Some(c), ctx) == c
    ensures c.context != ctx ==>
      var o := Opened(Some(c), ctx);
      o.context == ctx && o.entries == EmptyMap() && !o.recorded && (d in o.rejects <==> d in c.rejects || FailedEntry(c, d))
  {
    FailuresKept(c.rejects, c.entries, c.entries.keys, d);
  }

  /** What a delivered message starts with: the verdict of the very same comparable message if the ring holds it under its
      id, else the durable rejection of its material, else none. */
  ghost predicate Starts(c: Cache, m: Message, x: Entry) {
    && x.message == m
    && x.verification == if m.id in c.entries.at && m.content.Json? && c.entries.at[m.id].message == m then c.entries.at[m.id].verification
                         else if MaterialDigest(m) in c.rejects then Some(c.rejects[MaterialDigest(m)]) else None
  }

  lemma DeliveredStarts(c: Cache, m: Message)
    requires m.id != ""
    ensures m.id in RecordMessage(c, m).entries.at && Starts(c, m, RecordMessage(c, m).entries.at[m.id])
  {
    if m.id in c.entries.at && SameSignedMaterial(c.entries.at[m.id].message, m) { SameMaterialIsSame(c.entries.at[m.id].message, m); }
  }

  lemma SameMaterialIsSame(a: Message, b: Message)
    requires SameSignedMaterial(a, b)
    ensures a == b && b.content.Json?
  {
  }

  lemma {:induction false} OnlyItsOwn(c: Cache, ms: seq<Message>, id: string)
    requires c.entries.Valid() && forall m :: m in ms ==> m.id != id
    ensures
      var r := RecordMessages(c, ms);
      && r.entries.Valid() && r.rejects == c.rejects && (id in r.entries.at <==> id in c.entries.at)
      && (id in c.entries.at ==> r.entries.at[id] == c.entries.at[id])
  {
    if ms != [] {
      var n := |ms| - 1;
      assert ms == ms[..n] + [ms[n]];
      OnlyItsOwn(c, ms[..n], id);
    }
  }

  lemma {:induction false} RecordedSize(c: Cache, ms: seq<Message>)
    requires c.entries.Valid()
    ensures RecordMessages(c, ms).entries.Valid() && |RecordMessages(c, ms).entries.keys| <= |c.entries.keys| + |ms|
  {
    if ms != [] {
      var n := |ms| - 1;
      RecordedSize(c, ms[..n]);
      WithoutSize(RecordMessages(c, ms[..n]).entries.keys, ms[n].id);
    }
  }

  lemma StartsAlike(c: Cache, d: Cache, m: Message, x: Entry)
    requires Starts(d, m, x) && d.rejects == c.rejects && (m.id in d.entries.at <==> m.id in c.entries.at)
    requires m.id in c.entries.at ==> d.entries.at[m.id] == c.entries.at[m.id]
    ensures Starts(c, m, x)
  {
  }

  lemma {:induction false} DeliveredIn(c: Cache, ms: seq<Message>, i: nat)
    requires c.entries.Valid() && i < |ms| && ms[i].id != "" && forall j :: 0 <= j < |ms| && j != i ==> ms[j].id != ms[i].id
    ensures ms[i].id in RecordMessages(c, ms).entries.at && Starts(c, ms[i], RecordMessages(c, ms).entries.at[ms[i].id])
  {
    hide Starts, RecordMessage;
    var n := |ms| - 1;
    if i == n {
      var d := RecordMessages(c, ms[..n]);
      OnlyItsOwn(c, ms[..n], ms[n].id);
      DeliveredStarts(d, ms[n]);
      StartsAlike(c, d, ms[n], RecordMessage(d, ms[n]).entries.at[ms[n].id]);
    } else {
      DeliveredIn(c, ms[..n], i);
      RecordedSize(c, ms[..n]);
      RecordOther(RecordMessages(c, ms[..n]), ms[n], ms[i].id);
    }
  }

  /** Each message whose id a batch brings once starts as said, if the ring still holds it afterwards, as it does when it has
      room for the batch. */
  lemma BatchOutcome(c: Option<Cache>, ctx: Context, ms: seq<Message>, i: nat)
    requires Stored(c) && i < |ms| && ms[i].id != "" && forall j :: 0 <= j < |ms| && j != i ==> ms[j].id != ms[i].id
    ensures
      var r := BatchRecorded(c, ctx, ms);
      && (ms[i].id in r.entries.at ==> Starts(Opened(c, ctx), ms[i], r.entries.at[ms[i].id]))
      && (|Opened(c, ctx).entries.keys| + |ms| <= LAST_BATCH_CAP ==> ms[i].id in r.entries.at)
  {
    hide Starts;
    var o := Opened(c, ctx).(recorded := true);
    RecordedSize(o, ms);
    DeliveredIn(o, ms, i);
    EvictionKeeps(RecordMessages(o, ms).entries, LAST_BATCH_CAP);
    SameStart(Opened(c, ctx), ms[i], RecordMessages(o, ms).entries.at[ms[i].id]);
  }

  lemma SameStart(c: Cache, m: Message, x: Entry)
    ensures Starts(c.(recorded := true), m, x) <==> Starts(c, m, x)
  {
  }

  /** A reader of another connection is shown nothing; one of this connection is shown every entry, in order, except that
      a pass recorded under another generation is shown as no verdict. */
  lemma ReaderOutcome(c: Cache, ctx: Context, n: nat)
    requires c.entries.Valid() && c.recorded
    ensures c.context.connection != ctx.connection ==> View(Some(c), ctx) == []
    ensures c.context.connection == ctx.connection ==> |View(Some(c), ctx)| == |c.entries.keys|
    ensures c.context.connection == ctx.connection && n < |c.entries.keys| ==>
      var e := c.entries.at[c.entries.keys[n]];
      View(Some(c), ctx)[n] == if c.context.generation != ctx.generation && e.verification.Some? && e.verification.value.verified
                               then Entry(e.message, None) else e
  {
    if n < |c.entries.keys| { assert c.entries.keys[n] in c.entries.keys; }
  }
}
