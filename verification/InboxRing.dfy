/** The process-wide cached inbox that `ekho_inbox` reads: a ring of the latest messages, each with its
    verdict beside it, stamped with the connection and the trust generation it was recorded under, and
    the durable rejections that outlive both. */
module InboxRing {
  import opened OrderedMaps
  import opened Messages

  const LAST_BATCH_CAP: nat := 25

  datatype Context = Context(connection: string, generation: Generation)

  datatype Entry = Entry(message: Message, verification: Option<Verdict>)

  type Ring = OMap<string, Entry>
  type Rejects = map<Digest, Verdict>

  datatype Cache = Cache(context: Context, entries: Ring, recorded: bool, rejects: Rejects)

  // ---------------------------------------------------------------------
  // Opening
  // ---------------------------------------------------------------------

  predicate Failed(v: Option<Verdict>) {
    v.Some? && !v.value.verified
  }

  function KeepFailure(r: Rejects, e: Entry): Rejects {
    if Failed(e.verification) && !MaterialDigest(e.message).Uncomparable? then r[MaterialDigest(e.message) := e.verification.value] else r
  }

  /** Failures among the entries `ids` join the durable rejections. */
  function KeepFailures(r: Rejects, ring: Ring, ids: seq<string>): Rejects
    requires forall id :: id in ids ==> id in ring.at
  {
    if ids == [] then r else KeepFailure(KeepFailures(r, ring, ids[..|ids| - 1]), ring.at[ids[|ids| - 1]])
  }

  ghost predicate Stored(c: Option<Cache>) {
    c.Some? ==> c.value.entries.Valid()
  }

  /** The cache a producer writes under `ctx`: a change of context empties the ring and keeps only failures. */
  function Opened(c: Option<Cache>, ctx: Context): Cache
    requires Stored(c)
  {
    if c.None? then Cache(ctx, EmptyMap(), false, map[])
    else if c.value.context == ctx then c.value
    else Cache(ctx, EmptyMap(), false, KeepFailures(c.value.rejects, c.value.entries, c.value.entries.keys))
  }

  // ---------------------------------------------------------------------
  // Recording a batch
  // ---------------------------------------------------------------------

  function RejectOf(r: Rejects, m: Message): Option<Verdict> {
    if MaterialDigest(m) in r then Some(r[MaterialDigest(m)]) else None
  }

  /** The verdict a delivered message starts with: that of the very same message if the ring holds it. */
  function Previous(c: Cache, m: Message): Option<Verdict> {
    if m.id in c.entries.at && SameSignedMaterial(c.entries.at[m.id].message, m) then c.entries.at[m.id].verification
    else RejectOf(c.rejects, m)
  }

  function RecordMessage(c: Cache, m: Message): Cache {
    if m.id == "" then c else c.(entries := c.entries.Remove(m.id).Set(m.id, Entry(m, Previous(c, m))))
  }

  function RecordMessages(c: Cache, ms: seq<Message>): Cache {
    if ms == [] then c else RecordMessage(RecordMessages(c, ms[..|ms| - 1]), ms[|ms| - 1])
  }

  function BatchRecorded(c: Option<Cache>, ctx: Context, ms: seq<Message>): Cache
    requires Stored(c)
  {
    var r := RecordMessages(Opened(c, ctx).(recorded := true), ms);
    r.(entries := r.entries.EvictTo(LAST_BATCH_CAP))
  }

  // ---------------------------------------------------------------------
  // Attaching verdicts
  // ---------------------------------------------------------------------

  type ById = OMap<string, Option<Verdict>>

  /** `id`'s computed verdict reaches the ring entry only through the identity of the message it holds. */
  function Attach(c: Cache, bound: Verdicts, computed: Option<Verdict>, id: string): Cache {
    if computed.None? || id !in c.entries.at then c
    else
      var e := c.entries.at[id];
      var v := VerdictFor(bound, e.message);
      if v.None? then c
      else c.(entries := c.entries.Set(id, Entry(e.message, if RejectOf(c.rejects, e.message).Some? then RejectOf(c.rejects, e.message) else v)))
  }

  function AttachAll(c: Cache, bound: Verdicts, verdicts: map<string, Option<Verdict>>, ids: seq<string>): Cache
    requires forall id :: id in ids ==> id in verdicts
  {
    if ids == [] then c
    else Attach(AttachAll(c, bound, verdicts, ids[..|ids| - 1]), bound, verdicts[ids[|ids| - 1]], ids[|ids| - 1])
  }

  datatype Reject = Reject(message: Message, verdict: Verdict)

  function Mark(c: Cache, r: Reject): Cache {
    var id, d := r.message.id, MaterialDigest(r.message);
    if id in c.entries.at && (c.entries.at[id].message == r.message || SameSignedMaterial(c.entries.at[id].message, r.message)) then
      c.(entries := c.entries.Set(id, Entry(c.entries.at[id].message, Some(r.verdict))),
         rejects := if !r.verdict.verified && !d.Uncomparable? then c.rejects[d := r.verdict] else c.rejects)
    else c
  }

  function MarkAll(c: Cache, rs: seq<Reject>): Cache {
    if rs == [] then c else Mark(MarkAll(c, rs[..|rs| - 1]), rs[|rs| - 1])
  }

  function VerdictsRecorded(c: Option<Cache>, ctx: Context, batch: seq<Message>, verdicts: ById, rs: seq<Reject>): Cache
    requires Stored(c) && forall id :: id in verdicts.keys ==> id in verdicts.at
  {
    MarkAll(AttachAll(Opened(c, ctx), BatchVerdicts(batch, verdicts.at), verdicts.at, verdicts.keys), rs)
  }

  // ---------------------------------------------------------------------
  // Reading
  // ---------------------------------------------------------------------

  datatype Freshness = Current | Stale | Unavailable

  function FreshnessOf(c: Cache, ctx: Context): Freshness {
    if !c.recorded then Unavailable else if c.context.generation == ctx.generation then Current else Stale
  }

  /** A reader on another connection sees an empty inbox; with nothing cached it leaves an empty one behind. */
  function Viewed(c: Option<Cache>, ctx: Context): Cache {
    if c.None? || c.value.context.connection != ctx.connection then Cache(ctx, EmptyMap(), false, map[]) else c.value
  }

  function AfterRead(c: Option<Cache>, ctx: Context): Option<Cache> {
    if c.None? then Some(Viewed(c, ctx)) else c
  }

  function Shown(e: Entry, f: Freshness): Entry {
    if f == Stale && Passing(e.verification) then Entry(e.message, None) else e
  }

  function View(c: Option<Cache>, ctx: Context): (es: seq<Entry>)
    requires Stored(c)
    ensures |es| == |Viewed(c, ctx).entries.keys|
    ensures forall i :: 0 <= i < |es| ==>
      es[i] == Shown(Viewed(c, ctx).entries.at[Viewed(c, ctx).entries.keys[i]], FreshnessOf(Viewed(c, ctx), ctx))
  {
    var v := Viewed(c, ctx);
    seq(|v.entries.keys|, i requires 0 <= i < |v.entries.keys| => Shown(v.entries.at[v.entries.keys[i]], FreshnessOf(v, ctx)))
  }

  // ---------------------------------------------------------------------
  // The invariant
  // ---------------------------------------------------------------------

  /** A passing verdict beside a message was computed on exactly that message's material, under `gen`. */
  ghost predicate Earned(known: set<Computed>, gen: Generation, e: Entry) {
    Passing(e.verification) ==> Computed(gen, KeyOf(e.message), e.verification.value) in known
  }

  ghost predicate NotRejected(rejects: Rejects, e: Entry) {
    MaterialDigest(e.message) in rejects ==> !Passing(e.verification)
  }

  ghost predicate Sealed(rejects: Rejects) {
    forall d :: d in rejects ==> !rejects[d].verified && !d.Uncomparable?
  }

  ghost predicate Sound(known: set<Computed>, c: Cache) {
    && c.entries.Valid() && Sealed(c.rejects)
    && (forall id :: id in c.entries.at ==>
          && c.entries.at[id].message.id == id
          && Earned(known, c.context.generation, c.entries.at[id])
          && NotRejected(c.rejects, c.entries.at[id]))
    && (!c.recorded ==> c.entries.keys == [])
  }

  ghost predicate SoundStore(known: set<Computed>, c: Option<Cache>) {
    c.Some? ==> Sound(known, c.value) && |c.value.entries.keys| <= LAST_BATCH_CAP
  }

  lemma {:induction false} KeptFailures(r: Rejects, ring: Ring, ids: seq<string>)
    requires Sealed(r) && forall id :: id in ids ==> id in ring.at
    ensures Sealed(KeepFailures(r, ring, ids)) && r.Keys <= KeepFailures(r, ring, ids).Keys
  {
    if ids != [] { KeptFailures(r, ring, ids[..|ids| - 1]); }
  }

  lemma OpenedSound(known: set<Computed>, c: Option<Cache>, ctx: Context)
    requires SoundStore(known, c)
    ensures Sound(known, Opened(c, ctx)) && Opened(c, ctx).context == ctx && |Opened(c, ctx).entries.keys| <= LAST_BATCH_CAP
    ensures c.Some? ==> c.value.rejects.Keys <= Opened(c, ctx).rejects.Keys
  {
    if c.Some? { KeptFailures(c.value.rejects, c.value.entries, c.value.entries.keys); }
  }

  /** A redelivery keeps its verdict only as the very same message, and a rejection follows its material. */
  lemma PreviousIsSound(known: set<Computed>, c: Cache, m: Message)
    requires Sound(known, c)
    ensures Earned(known, c.context.generation, Entry(m, Previous(c, m))) && NotRejected(c.rejects, Entry(m, Previous(c, m)))
  {
  }

  lemma SetSound(known: set<Computed>, c: Cache, e: Entry)
    requires Sound(known, c) && c.recorded && Earned(known, c.context.generation, e) && NotRejected(c.rejects, e)
    ensures Sound(known, c.(entries := c.entries.Remove(e.message.id).Set(e.message.id, e)))
  {
    hide Earned, NotRejected, Sealed, NoDup, Without;
    var id := e.message.id;
    var r := c.entries.Remove(id).Set(id, e);
    assert r.Valid();
    assert r.at == (c.entries.at - {id})[id := e];
  }

  lemma RecordMessageSound(known: set<Computed>, c: Cache, m: Message)
    requires Sound(known, c) && c.recorded
    ensures Sound(known, RecordMessage(c, m)) && RecordMessage(c, m).context == c.context
    ensures RecordMessage(c, m).recorded && RecordMessage(c, m).rejects == c.rejects
  {
    hide Previous, Earned, NotRejected, Sound;
    PreviousIsSound(known, c, m);
    SetSound(known, c, Entry(m, Previous(c, m)));
  }

  lemma {:induction false} RecordMessagesSound(known: set<Computed>, c: Cache, ms: seq<Message>)
    requires Sound(known, c) && c.recorded
    ensures
      var r := RecordMessages(c, ms);
      Sound(known, r) && r.context == c.context && r.recorded && r.rejects == c.rejects
  {
    if ms != [] {
      RecordMessagesSound(known, c, ms[..|ms| - 1]);
      RecordMessageSound(known, RecordMessages(c, ms[..|ms| - 1]), ms[|ms| - 1]);
    }
  }

  lemma BatchRecordedSound(known: set<Computed>, c: Option<Cache>, ctx: Context, ms: seq<Message>)
    requires SoundStore(known, c)
    ensures SoundStore(known, Some(BatchRecorded(c, ctx, ms))) && BatchRecorded(c, ctx, ms).context == ctx
    ensures c.Some? ==> c.value.rejects.Keys <= BatchRecorded(c, ctx, ms).rejects.Keys
  {
    OpenedSound(known, c, ctx);
    var o := Opened(c, ctx).(recorded := true);
    RecordMessagesSound(known, o, ms);
    EvictionKeeps(RecordMessages(o, ms).entries, LAST_BATCH_CAP);
  }

  ghost predicate BoundEarned(known: set<Computed>, gen: Generation, bound: Verdicts) {
    forall k :: k in bound && Passing(bound[k]) ==> Computed(gen, k, bound[k].value) in known
  }

  lemma AttachSound(known: set<Computed>, c: Cache, bound: Verdicts, computed: Option<Verdict>, id: string)
    requires Sound(known, c) && BoundEarned(known, c.context.generation, bound)
    ensures
      var r := Attach(c, bound, computed, id);
      Sound(known, r) && r.context == c.context && r.entries.keys == c.entries.keys && r.rejects == c.rejects
  {
  }

  lemma {:induction false} AttachAllSound(known: set<Computed>, c: Cache, bound: Verdicts, verdicts: map<string, Option<Verdict>>, ids: seq<string>)
    requires Sound(known, c) && BoundEarned(known, c.context.generation, bound) && forall id :: id in ids ==> id in verdicts
    ensures
      var r := AttachAll(c, bound, verdicts, ids);
      Sound(known, r) && r.context == c.context && r.entries.keys == c.entries.keys && r.rejects == c.rejects
  {
    if ids != [] {
      var n := |ids| - 1;
      AttachAllSound(known, c, bound, verdicts, ids[..n]);
      AttachSound(known, AttachAll(c, bound, verdicts, ids[..n]), bound, verdicts[ids[n]], ids[n]);
    }
  }

  /** Only one message can carry a given digest, so no other entry wears the one just rejected. */
  lemma MarkSound(known: set<Computed>, c: Cache, r: Reject)
    requires Sound(known, c) && !r.verdict.verified
    ensures
      var m := Mark(c, r);
      Sound(known, m) && m.context == c.context && m.entries.keys == c.entries.keys && c.rejects.Keys <= m.rejects.Keys
  {
  }

  lemma {:induction false} MarkAllSound(known: set<Computed>, c: Cache, rs: seq<Reject>)
    requires Sound(known, c) && forall r :: r in rs ==> !r.verdict.verified
    ensures
      var m := MarkAll(c, rs);
      Sound(known, m) && m.context == c.context && m.entries.keys == c.entries.keys && c.rejects.Keys <= m.rejects.Keys
  {
    if rs != [] {
      var n := |rs| - 1;
      assert rs[n] in rs;
      MarkAllSound(known, c, rs[..n]);
      MarkSound(known, MarkAll(c, rs[..n]), rs[n]);
    }
  }

  lemma VerdictsRecordedSound(known: set<Computed>, c: Option<Cache>, ctx: Context, batch: seq<Message>, verdicts: ById, rs: seq<Reject>)
    requires SoundStore(known, c) && (forall id :: id in verdicts.keys ==> id in verdicts.at)
    requires BoundEarned(known, ctx.generation, BatchVerdicts(batch, verdicts.at)) && forall r :: r in rs ==> !r.verdict.verified
    ensures SoundStore(known, Some(VerdictsRecorded(c, ctx, batch, verdicts, rs)))
    ensures c.Some? ==> c.value.rejects.Keys <= VerdictsRecorded(c, ctx, batch, verdicts, rs).rejects.Keys
  {
    OpenedSound(known, c, ctx);
    var bound := BatchVerdicts(batch, verdicts.at);
    AttachAllSound(known, Opened(c, ctx), bound, verdicts.at, verdicts.keys);
    MarkAllSound(known, AttachAll(Opened(c, ctx), bound, verdicts.at, verdicts.keys), rs);
  }

  // ---------------------------------------------------------------------
  // Runs
  // ---------------------------------------------------------------------

  /** What can happen to an agent's cached inbox. `VerdictsArrive` carries the verdicts computed for `batch`
      under `ctx`, the durable rejections applied to them, and the rejections the tick collected. */
  datatype Event =
    | BatchArrives(ctx: Context, messages: seq<Message>)
    | VerdictsArrive(ctx: Context, batch: seq<Message>, results: seq<Option<Verdict>>,
                     rejected: map<string, Verdict>, ids: seq<string>, collected: seq<Reject>)
    | Touched(ctx: Context)
    | IsRead(ctx: Context)

  ghost predicate ValidEvent(e: Event) {
    e.VerdictsArrive? ==>
      && |e.results| == |e.batch|
      && (forall id :: id in e.rejected ==> !e.rejected[id].verified)
      && (forall id :: id in e.ids ==> id in Admission(e.batch, e.results, e.rejected))
      && (forall r :: r in e.collected ==> !r.verdict.verified)
  }

  function Next(c: Option<Cache>, e: Event): Option<Cache>
    requires Stored(c) && ValidEvent(e)
  {
    match e
    case BatchArrives(ctx, ms) => Some(BatchRecorded(c, ctx, ms))
    case VerdictsArrive(ctx, batch, results, rejected, ids, collected) =>
      Some(VerdictsRecorded(c, ctx, batch, OMap(ids, Admission(batch, results, rejected)), collected))
    case Touched(ctx) => Some(Opened(c, ctx))
    case IsRead(ctx) => AfterRead(c, ctx)
  }

  ghost predicate IsRun(cs: seq<Option<Cache>>, es: seq<Event>) {
    && |cs| == |es| + 1 && cs[0] == None
    && forall i :: 0 <= i < |es| ==> Stored(cs[i]) && ValidEvent(es[i]) && cs[i + 1] == Next(cs[i], es[i])
  }

  ghost function Learnt(e: Event): set<Computed> {
    if e.VerdictsArrive? && |e.results| == |e.batch| then ComputedIn(e.ctx.generation, e.batch, e.results) else {}
  }

  ghost function Known(es: seq<Event>): set<Computed> {
    if es == [] then {} else Known(es[..|es| - 1]) + Learnt(es[|es| - 1])
  }

  lemma KnowMore(known: set<Computed>, more: set<Computed>, c: Option<Cache>)
    requires SoundStore(known, c)
    ensures SoundStore(known + more, c)
  {
  }

  lemma AdmissionIsEarned(known: set<Computed>, e: Event)
    requires e.VerdictsArrive? && ValidEvent(e)
    ensures BoundEarned(known + Learnt(e), e.ctx.generation, BatchVerdicts(e.batch, Admission(e.batch, e.results, e.rejected)))
  {
    var bound := BatchVerdicts(e.batch, Admission(e.batch, e.results, e.rejected));
    forall k | k in bound && Passing(bound[k]) ensures Computed(e.ctx.generation, k, bound[k].value) in known + Learnt(e) {
      PassIsComputed(e.ctx.generation, e.batch, e.results, e.rejected, k);
    }
  }

  lemma NextSound(known: set<Computed>, c: Option<Cache>, e: Event)
    requires SoundStore(known, c) && ValidEvent(e)
    ensures Stored(c) && SoundStore(known + Learnt(e), Next(c, e))
    ensures c.Some? ==> Next(c, e).Some? && c.value.rejects.Keys <= Next(c, e).value.rejects.Keys
  {
    var all := known + Learnt(e);
    KnowMore(known, Learnt(e), c);
    match e
    case BatchArrives(ctx, ms) => BatchRecordedSound(all, c, ctx, ms);
    case VerdictsArrive(ctx, batch, results, rejected, ids, collected) =>
      AdmissionIsEarned(known, e);
      VerdictsRecordedSound(all, c, ctx, batch, OMap(ids, Admission(batch, results, rejected)), collected);
    case Touched(ctx) => OpenedSound(all, c, ctx);
    case IsRead(ctx) =>
  }

  /** In every run, every cached pass was computed on its entry's own material under the cache's own trust
      generation, no rejected material is cached as passing, and the ring stays within its cap. */
  lemma {:induction false} RingIsSound(cs: seq<Option<Cache>>, es: seq<Event>, i: nat)
    requires IsRun(cs, es) && i <= |es|
    ensures SoundStore(Known(es[..i]), cs[i])
  {
    if i > 0 {
      RingIsSound(cs, es, i - 1);
      NextSound(Known(es[..i - 1]), cs[i - 1], es[i - 1]);
      assert es[..i][..i - 1] == es[..i - 1];
      assert cs[i - 1 + 1] == Next(cs[i - 1], es[i - 1]);
    }
  }

  /** The verdict was computed for that material, in that batch event, under that generation. */
  ghost predicate VerifiedAt(es: seq<Event>, j: nat, gen: Generation, k: HeldKey, v: Verdict) {
    && j < |es| && es[j].VerdictsArrive? && es[j].ctx.generation == gen && |es[j].results| == |es[j].batch|
    && exists n :: 0 <= n < |es[j].batch| && KeyOf(es[j].batch[n]) == k && es[j].results[n] == Some(v)
  }

  lemma {:induction false} KnownFromVerification(es: seq<Event>, x: Computed)
    requires x in Known(es)
    ensures exists j :: VerifiedAt(es, j, x.generation, x.key, x.verdict)
  {
    var n := |es| - 1;
    if x in Known(es[..n]) {
      KnownFromVerification(es[..n], x);
      var j :| VerifiedAt(es[..n], j, x.generation, x.key, x.verdict);
      assert VerifiedAt(es, j, x.generation, x.key, x.verdict);
    } else {
      assert VerifiedAt(es, n, x.generation, x.key, x.verdict);
    }
  }

  /** Whatever a reader is shown as passing was verified, on exactly the shown message's material, under the
      reader's own trust generation: a reader in another generation, or on another connection, sees no pass. */
  lemma ReadersSeeOnlyEarnedPasses(cs: seq<Option<Cache>>, es: seq<Event>, i: nat, ctx: Context, n: nat)
    requires IsRun(cs, es) && i <= |es| && Stored(cs[i]) && n < |View(cs[i], ctx)|
    requires Passing(View(cs[i], ctx)[n].verification)
    ensures cs[i].Some? && cs[i].value.context == ctx
    ensures exists j :: VerifiedAt(es[..i], j, ctx.generation, KeyOf(View(cs[i], ctx)[n].message), View(cs[i], ctx)[n].verification.value)
  {
    RingIsSound(cs, es, i);
    var c := Viewed(cs[i], ctx);
    var e := View(cs[i], ctx)[n];
    assert c.entries.keys[n] in c.entries.keys;
    assert e == c.entries.at[c.entries.keys[n]] && FreshnessOf(c, ctx) == Current;
    KnownFromVerification(es[..i], Computed(ctx.generation, KeyOf(e.message), e.verification.value));
  }

  lemma {:induction false} RejectsStay(cs: seq<Option<Cache>>, es: seq<Event>, i: nat, j: nat)
    requires IsRun(cs, es) && i <= j <= |es| && cs[i].Some?
    ensures cs[j].Some? && cs[i].value.rejects.Keys <= cs[j].value.rejects.Keys
  {
    if i < j {
      RejectsStay(cs, es, i, j - 1);
      RingIsSound(cs, es, j - 1);
      NextSound(Known(es[..j - 1]), cs[j - 1], es[j - 1]);
      assert cs[j - 1 + 1] == Next(cs[j - 1], es[j - 1]);
    }
  }

  /** The ring holds this very message. */
  predicate Holds(c: Cache, m: Message) {
    m.id in c.entries.at && (c.entries.at[m.id].message == m || SameSignedMaterial(c.entries.at[m.id].message, m))
  }

  lemma {:induction false} AttachKeepsMessages(c: Cache, bound: Verdicts, verdicts: map<string, Option<Verdict>>, ids: seq<string>, m: Message)
    requires Holds(c, m) && forall id :: id in ids ==> id in verdicts
    ensures Holds(AttachAll(c, bound, verdicts, ids), m)
  {
    if ids != [] { AttachKeepsMessages(c, bound, verdicts, ids[..|ids| - 1], m); }
  }

  lemma {:induction false} MarkKeepsMessages(c: Cache, rs: seq<Reject>, m: Message)
    requires Holds(c, m)
    ensures Holds(MarkAll(c, rs), m)
  {
    if rs != [] { MarkKeepsMessages(c, rs[..|rs| - 1], m); }
  }

  lemma {:induction false} MarkedIsRejected(c: Cache, rs: seq<Reject>, r: Reject)
    requires Holds(c, r.message) && r in rs && !r.verdict.verified && !MaterialDigest(r.message).Uncomparable?
    ensures MaterialDigest(r.message) in MarkAll(c, rs).rejects
  {
    var n := |rs| - 1;
    assert rs == rs[..n] + [rs[n]];
    MarkKeepsMessages(c, rs[..n], r.message);
    if r in rs[..n] { MarkedIsRejected(c, rs[..n], r); }
  }

  /** This event collects a rejection of a comparable message the ring holds. */
  ghost predicate RejectsAt(cs: seq<Option<Cache>>, es: seq<Event>, i: nat, r: Reject) {
    && i < |es| && i < |cs| && Stored(cs[i]) && es[i].VerdictsArrive? && r in es[i].collected
    && !MaterialDigest(r.message).Uncomparable? && Holds(Opened(cs[i], es[i].ctx), r.message)
  }

  lemma RejectionIsKept(cs: seq<Option<Cache>>, es: seq<Event>, i: nat, r: Reject)
    requires IsRun(cs, es) && RejectsAt(cs, es, i, r)
    ensures cs[i + 1].Some? && MaterialDigest(r.message) in cs[i + 1].value.rejects
  {
    var e, o := es[i], Opened(cs[i], es[i].ctx);
    var vs := Admission(e.batch, e.results, e.rejected);
    var bound := BatchVerdicts(e.batch, vs);
    assert ValidEvent(e) && cs[i + 1] == Next(cs[i], e);
    AttachKeepsMessages(o, bound, vs, e.ids, r.message);
    MarkedIsRejected(AttachAll(o, bound, vs, e.ids), e.collected, r);
  }

  /** Once a message the ring holds has been rejected, no reader is ever shown its material as passing again,
      through any redelivery, eviction, re-verification or change of context. */
  lemma RejectedForever(cs: seq<Option<Cache>>, es: seq<Event>, i: nat, j: nat, r: Reject, ctx: Context, n: nat)
    requires IsRun(cs, es) && RejectsAt(cs, es, i, r) && i < j <= |es|
    requires Stored(cs[j]) && n < |View(cs[j], ctx)| && MaterialDigest(View(cs[j], ctx)[n].message) == MaterialDigest(r.message)
    ensures !Passing(View(cs[j], ctx)[n].verification)
  {
    RejectionIsKept(cs, es, i, r);
    RejectsStay(cs, es, i + 1, j);
    RingIsSound(cs, es, j);
    var c := Viewed(cs[j], ctx);
    assert c.entries.keys[n] in c.entries.keys;
  }

  // ---------------------------------------------------------------------
  // The registry's own loops
  // ---------------------------------------------------------------------

  class InboxRegistry {
    var cache: Option<Cache>

    constructor ()
      ensures cache == None
    {
      cache := None;
    }

    method Open(ctx: Context) returns (c: Cache)
      requires Stored(cache)
      modifies this
      ensures c == Opened(old(cache), ctx) && cache == Some(c)
    {
      if cache.None? {
        c := Cache(ctx, EmptyMap(), false, map[]);
      } else if cache.value.context == ctx {
        c := cache.value;
      } else {
        var was := cache.value;
        var rejects := was.rejects;
        for i := 0 to |was.entries.keys|
          invariant rejects == KeepFailures(was.rejects, was.entries, was.entries.keys[..i])
        {
          var ids := was.entries.keys;
          assert ids[..i + 1][..i] == ids[..i];
          rejects := KeepFailure(rejects, was.entries.at[ids[i]]);
        }
        assert was.entries.keys[..|was.entries.keys|] == was.entries.keys;
        c := Cache(ctx, EmptyMap(), false, rejects);
      }
      cache := Some(c);
    }

    method RecordBatch(ctx: Context, ms: seq<Message>)
      requires Stored(cache)
      modifies this
      ensures cache == Some(BatchRecorded(old(cache), ctx, ms))
    {
      var c := Open(ctx);
      c := c.(recorded := true);
      ghost var o := c;
      for i := 0 to |ms|
        invariant c == RecordMessages(o, ms[..i])
      {
        assert ms[..i + 1][..i] == ms[..i];
        if ms[i].id != "" {
          var previous := Previous(c, ms[i]);
          c := c.(entries := c.entries.Remove(ms[i].id).Set(ms[i].id, Entry(ms[i], previous)));
        }
      }
      assert ms[..|ms|] == ms;
      ghost var all := c.entries;
      while |c.entries.keys| > LAST_BATCH_CAP
        invariant c.(entries := all) == RecordMessages(o, ms)
        invariant c.entries.EvictTo(LAST_BATCH_CAP) == all.EvictTo(LAST_BATCH_CAP)
        decreases |c.entries.keys|
      {
        c := c.(entries := c.entries.DropOldest());
      }
      cache := Some(c);
    }

    method RecordVerifications(ctx: Context, batch: seq<Message>, verdicts: ById, rejects: seq<Reject>)
      requires Stored(cache) && forall id :: id in verdicts.keys ==> id in verdicts.at
      modifies this
      ensures cache == Some(VerdictsRecorded(old(cache), ctx, batch, verdicts, rejects))
    {
      var c := Open(ctx);
      ghost var o := c;
      var bound := BatchVerdictsByHeldKey(batch, verdicts.at);
      var ids := verdicts.keys;
      for i := 0 to |ids|
        invariant c == AttachAll(o, bound, verdicts.at, ids[..i])
      {
        assert ids[..i + 1][..i] == ids[..i];
        c := Attach(c, bound, verdicts.at[ids[i]], ids[i]);
      }
      assert ids[..|ids|] == ids;
      ghost var attached := c;
      for i := 0 to |rejects|
        invariant c == MarkAll(attached, rejects[..i])
      {
        assert rejects[..i + 1][..i] == rejects[..i];
        c := Mark(c, rejects[i]);
      }
      assert rejects[..|rejects|] == rejects;
      cache := Some(c);
    }

    method GetCachedInbox(ctx: Context) returns (es: seq<Entry>, freshness: Freshness)
      requires Stored(cache)
      modifies this
      ensures es == View(old(cache), ctx) && freshness == FreshnessOf(Viewed(old(cache), ctx), ctx)
      ensures cache == AfterRead(old(cache), ctx)
    {
      var c := Viewed(cache, ctx);
      cache := AfterRead(cache, ctx);
      freshness := FreshnessOf(c, ctx);
      es := [];
      for i := 0 to |c.entries.keys|
        invariant es == View(old(cache), ctx)[..i]
      {
        es := es + [Shown(c.entries.at[c.entries.keys[i]], freshness)];
      }
    }
  }
}
