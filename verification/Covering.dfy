/** Getting stashes out again: the covering turn that absorbs them, the late delivery of
    expired ones and the list a floor retry walks. */
module Covering {
  import opened OrderedMaps
  import opened Messages
  import opened Stashing

  // ---------------------------------------------------------------------
  // Oldest deferral first
  // ---------------------------------------------------------------------

  function InsertBySince(at: map<string, Stash>, c: string, sorted: seq<string>): (r: seq<string>)
    requires c in at && forall x :: x in sorted ==> x in at
    ensures forall x :: x in r <==> x == c || x in sorted
    ensures |r| == |sorted| + 1
  {
    if sorted == [] then [c]
    else
      var n := |sorted| - 1;
      assert sorted == sorted[..n] + [sorted[n]];
      if at[sorted[n]].since <= at[c].since then sorted + [c]
      else InsertBySince(at, c, sorted[..n]) + [sorted[n]]
  }

  /** Stable sort by first deferral time. */
  function SortBySince(at: map<string, Stash>, cs: seq<string>): (r: seq<string>)
    requires forall x :: x in cs ==> x in at
    ensures forall x :: x in r <==> x in cs
    ensures |r| == |cs|
  {
    if cs == [] then []
    else
      var n := |cs| - 1;
      assert cs == cs[..n] + [cs[n]];
      InsertBySince(at, cs[n], SortBySince(at, cs[..n]))
  }

  ghost predicate LongestWaitFirst(at: map<string, Stash>, cs: seq<string>)
    requires forall x :: x in cs ==> x in at
  {
    |cs| <= 1 || (at[cs[|cs| - 2]].since <= at[cs[|cs| - 1]].since && LongestWaitFirst(at, cs[..|cs| - 1]))
  }

  lemma {:induction false} FirstWaitsLongest(at: map<string, Stash>, cs: seq<string>, i: nat)
    requires (forall x :: x in cs ==> x in at) && LongestWaitFirst(at, cs) && i < |cs|
    ensures at[cs[0]].since <= at[cs[i]].since
  {
    if |cs| > 1 {
      var n := |cs| - 1;
      FirstWaitsLongest(at, cs[..n], if i == n then n - 1 else i);
    }
  }

  /** The conversations of `cs` deferred first at time `t`, in order. */
  ghost function DeferredAt(at: map<string, Stash>, cs: seq<string>, t: int): seq<string>
    requires forall x :: x in cs ==> x in at
  {
    if cs == [] then []
    else DeferredAt(at, cs[..|cs| - 1], t) + (if at[cs[|cs| - 1]].since == t then [cs[|cs| - 1]] else [])
  }

  lemma {:induction false} InsertSorted(at: map<string, Stash>, c: string, sorted: seq<string>)
    requires c in at && (forall x :: x in sorted ==> x in at) && LongestWaitFirst(at, sorted)
    ensures var r := InsertBySince(at, c, sorted);
      && LongestWaitFirst(at, r)
      && (r[|r| - 1] == c || (sorted != [] && r[|r| - 1] == sorted[|sorted| - 1]))
  {
    if sorted != [] {
      var n := |sorted| - 1;
      var init, last := sorted[..n], sorted[n];
      if at[last].since <= at[c].since {
        assert (sorted + [c])[..n + 1] == sorted;
      } else {
        InsertSorted(at, c, init);
        var r := InsertBySince(at, c, init);
        assert (r + [last])[..|r|] == r;
      }
    }
  }

  lemma {:induction false} InsertCounts(at: map<string, Stash>, c: string, sorted: seq<string>)
    requires c in at && forall x :: x in sorted ==> x in at
    ensures multiset(InsertBySince(at, c, sorted)) == multiset(sorted) + multiset{c}
  {
    if sorted != [] {
      var n := |sorted| - 1;
      assert sorted == sorted[..n] + [sorted[n]];
      InsertCounts(at, c, sorted[..n]);
    }
  }

  lemma DeferredSnoc(at: map<string, Stash>, cs: seq<string>, c: string, t: int)
    requires c in at && forall x :: x in cs ==> x in at
    ensures DeferredAt(at, cs + [c], t) == DeferredAt(at, cs, t) + (if at[c].since == t then [c] else [])
  {
    assert (cs + [c])[..|cs|] == cs;
  }

  lemma InsertSnoc(at: map<string, Stash>, c: string, init: seq<string>, last: string)
    requires c in at && last in at && forall x :: x in init ==> x in at
    ensures
      InsertBySince(at, c, init + [last])
      == if at[last].since <= at[c].since then init + [last] + [c] else InsertBySince(at, c, init) + [last]
  {
    assert (init + [last])[..|init|] == init;
  }

  lemma {:induction false} InsertStable(at: map<string, Stash>, c: string, sorted: seq<string>, t: int)
    requires c in at && forall x :: x in sorted ==> x in at
    ensures DeferredAt(at, InsertBySince(at, c, sorted), t) == DeferredAt(at, sorted, t) + (if at[c].since == t then [c] else [])
  {
    hide DeferredAt, InsertBySince;
    if sorted == [] {
      InsertAlone(at, c);
      DeferredSnoc(at, [], c, t);
    } else {
      var n := |sorted| - 1;
      var init, last := sorted[..n], sorted[n];
      assert sorted == init + [last];
      DeferredSnoc(at, init, last, t);
      InsertSnoc(at, c, init, last);
      if at[last].since <= at[c].since {
        DeferredSnoc(at, sorted, c, t);
      } else {
        InsertStable(at, c, init, t);
        DeferredSnoc(at, InsertBySince(at, c, init), last, t);
      }
    }
  }

  lemma InsertAlone(at: map<string, Stash>, c: string)
    requires c in at
    ensures InsertBySince(at, c, []) == [] + [c]
  {
  }

  /** The sort is a permutation, longest wait first, ties in their original order. */
  lemma {:induction false} SortIsStable(at: map<string, Stash>, cs: seq<string>)
    requires forall x :: x in cs ==> x in at
    ensures multiset(SortBySince(at, cs)) == multiset(cs)
    ensures LongestWaitFirst(at, SortBySince(at, cs))
    ensures forall t :: DeferredAt(at, SortBySince(at, cs), t) == DeferredAt(at, cs, t)
  {
    if cs != [] {
      var n := |cs| - 1;
      assert cs == cs[..n] + [cs[n]];
      SortIsStable(at, cs[..n]);
      InsertSorted(at, cs[n], SortBySince(at, cs[..n]));
      InsertCounts(at, cs[n], SortBySince(at, cs[..n]));
      forall t ensures DeferredAt(at, SortBySince(at, cs), t) == DeferredAt(at, cs, t) {
        InsertStable(at, cs[n], SortBySince(at, cs[..n]), t);
      }
    }
  }

  // ---------------------------------------------------------------------
  // Expiry
  // ---------------------------------------------------------------------

  predicate Expired(s: Stash, now: int) {
    now - s.since > RETRY_TTL_MS
  }

  function ExpiredAmong(at: map<string, Stash>, cs: seq<string>, now: int): (r: seq<string>)
    requires forall x :: x in cs ==> x in at
    ensures forall x :: x in r <==> x in cs && Expired(at[x], now)
  {
    if cs == [] then []
    else
      var n := |cs| - 1;
      assert cs == cs[..n] + [cs[n]];
      ExpiredAmong(at, cs[..n], now) + (if Expired(at[cs[n]], now) then [cs[n]] else [])
  }

  function LiveAmong(at: map<string, Stash>, cs: seq<string>, now: int): (r: seq<string>)
    requires forall x :: x in cs ==> x in at
    ensures forall x :: x in r <==> x in cs && !Expired(at[x], now)
  {
    if cs == [] then []
    else
      var n := |cs| - 1;
      assert cs == cs[..n] + [cs[n]];
      LiveAmong(at, cs[..n], now) + (if Expired(at[cs[n]], now) then [] else [cs[n]])
  }

  /** The stashes past the retry TTL, longest wait first. */
  function ExpiredOrder(d: Stashes, now: int): (r: seq<string>)
    requires d.Valid()
    ensures forall c :: c in r <==> c in d.at && Expired(d.at[c], now)
  {
    SortBySince(d.at, ExpiredAmong(d.at, d.keys, now))
  }

  /** The stashes still within the retry TTL, longest wait first. */
  function RetryOrder(d: Stashes, now: int): (r: seq<string>)
    requires d.Valid()
    ensures forall c :: c in r <==> c in d.at && !Expired(d.at[c], now)
  {
    SortBySince(d.at, LiveAmong(d.at, d.keys, now))
  }

  /** The expired stash delivered next has waited at least as long as every other stash. */
  lemma OldestGoesFirst(d: Stashes, now: int, c: string)
    requires d.Valid() && c in d.at && Expired(d.at[c], now)
    ensures ExpiredOrder(d, now) != [] && d.at[ExpiredOrder(d, now)[0]].since <= d.at[c].since
  {
    var r := ExpiredOrder(d, now);
    SortIsStable(d.at, ExpiredAmong(d.at, d.keys, now));
    var i :| 0 <= i < |r| && r[i] == c;
    FirstWaitsLongest(d.at, r, i);
  }

  function ClearAll(d: Stashes, cs: seq<string>): (r: Stashes)
    requires d.Valid()
    ensures r.Valid()
    ensures forall c :: c in r.at <==> c in d.at && c !in cs
    ensures forall c :: c in r.at ==> r.at[c] == d.at[c]
    ensures |r.keys| <= |d.keys|
  {
    if cs == [] then d
    else
      var n := |cs| - 1;
      assert cs == cs[..n] + [cs[n]];
      ClearAll(d, cs[..n]).Remove(cs[n])
  }

  // ---------------------------------------------------------------------
  // The covering turn
  // ---------------------------------------------------------------------

  function ConversationsOf(ms: seq<Message>): (cs: seq<string>)
    ensures |cs| == |ms| && forall i :: 0 <= i < |ms| ==> cs[i] == ms[i].conversation
  {
    seq(|ms|, i requires 0 <= i < |ms| => ms[i].conversation)
  }

  function StashedAmong(d: Stashes, cs: seq<string>): (r: seq<string>)
    ensures forall c :: c in r <==> c in cs && c in d.at && d.at[c].entries != []
    ensures NoDup(cs) ==> NoDup(r)
  {
    if cs == [] then []
    else
      var n := |cs| - 1;
      assert cs == cs[..n] + [cs[n]];
      var rest := StashedAmong(d, cs[..n]);
      assert (rest + [cs[n]])[..|rest|] == rest;
      if cs[n] in d.at && d.at[cs[n]].entries != [] then rest + [cs[n]] else rest
  }

  /** The conversations this turn covers, longest wait first. */
  function CoveredBy(d: Stashes, floored: seq<Message>): (r: seq<string>)
    ensures forall c :: c in r <==> c in ConversationsOf(floored) && c in d.at && d.at[c].entries != []
  {
    SortBySince(d.at, StashedAmong(d, Union([], ConversationsOf(floored))))
  }

  function HeldEntries(at: map<string, Stash>, cs: seq<string>): (es: seq<StashEntry>)
    requires forall c :: c in cs ==> c in at
    ensures forall e :: e in es ==> exists c :: c in cs && e in at[c].entries
  {
    if cs == [] then []
    else
      var n := |cs| - 1;
      assert cs == cs[..n] + [cs[n]];
      HeldEntries(at, cs[..n]) + at[cs[n]].entries
  }

  /** A stored verdict as it may be rendered under `gen`: a pass from another generation is no verdict. */
  function EntryVerdict(e: StashEntry, gen: Generation): Option<Verdict> {
    if Passing(e.verdict) && e.generation != Some(gen) then None else e.verdict
  }

  function Freshest(ms: seq<Message>, k: HeldKey): (r: Option<Message>)
    ensures r.Some? <==> k in KeysOf(ms)
    ensures r.Some? ==> r.value in ms && KeyOf(r.value) == k
  {
    if ms == [] then None
    else
      var n := |ms| - 1;
      assert ms == ms[..n] + [ms[n]];
      assert KeysOf(ms) == KeysOf(ms[..n]) + [KeyOf(ms[n])];
      if KeyOf(ms[n]) == k then Some(ms[n]) else Freshest(ms[..n], k)
  }

  /** What a turn is given to render: messages, a verdict per identity, and which identities are late. */
  datatype Cargo = Cargo(messages: seq<Message>, labels: Verdicts, late: seq<HeldKey>)

  predicate Labelled(c: Cargo) {
    c.labels.Keys == set k | k in KeysOf(c.messages)
  }

  function Load(c: Cargo, m: Message, shown: Option<Verdict>): (r: Cargo)
    ensures KeysOf(r.messages) == KeysOf(c.messages) + [KeyOf(m)]
    ensures Labelled(c) ==> Labelled(r)
  {
    var r := Cargo(c.messages + [m], c.labels[KeyOf(m) := shown], c.late);
    assert KeysOf(r.messages) == KeysOf(c.messages) + [KeyOf(m)];
    r
  }

  /** What a held-back entry is shown as: this tick's verdict if the batch redelivers that very
      material, else the stored one as `gen` allows it. */
  function HeldLabel(e: StashEntry, floored: seq<Message>, vs: Verdicts, gen: Generation): Option<Verdict> {
    if KeyOf(e.message) in KeysOf(floored) then VerdictFor(vs, e.message) else EntryVerdict(e, gen)
  }

  /** One held-back entry: the redelivered object with this tick's verdict if the batch has one, else itself. */
  function LoadEntry(c: Cargo, e: StashEntry, floored: seq<Message>, vs: Verdicts, gen: Generation): (r: Cargo)
    requires KeysOf(c.messages) == c.late && Labelled(c)
    ensures r.late == Union(c.late, [KeyOf(e.message)]) == KeysOf(r.messages)
    ensures Labelled(r)
    ensures KeyOf(e.message) in c.late ==> r == c
    ensures KeyOf(e.message) !in c.late ==> r.labels == c.labels[KeyOf(e.message) := HeldLabel(e, floored, vs, gen)]
  {
    var k := KeyOf(e.message);
    assert [k][..0] == [];
    if k in c.late then c
    else
      var loaded := match Freshest(floored, k)
        case Some(newest) => Load(c, newest, VerdictFor(vs, newest))
        case None => Load(c, e.message, EntryVerdict(e, gen));
      loaded.(late := c.late + [k])
  }

  function LoadHeld(es: seq<StashEntry>, floored: seq<Message>, vs: Verdicts, gen: Generation): (r: Cargo)
    ensures KeysOf(r.messages) == r.late == Union([], EntryKeys(es))
    ensures Labelled(r)
  {
    if es == [] then Cargo([], map[], [])
    else
      var n := |es| - 1;
      assert EntryKeys(es)[..n] == EntryKeys(es[..n]);
      LoadEntry(LoadHeld(es[..n], floored, vs, gen), es[n], floored, vs, gen)
  }

  function LoadNew(c: Cargo, m: Message, vs: Verdicts): (r: Cargo)
    ensures KeysOf(r.messages) == Union(KeysOf(c.messages), [KeyOf(m)]) && r.late == c.late
    ensures Labelled(c) ==> Labelled(r) && forall k :: k in c.labels ==> k in r.labels && r.labels[k] == c.labels[k]
  {
    assert [KeyOf(m)][..0] == [];
    if KeyOf(m) in KeysOf(c.messages) then c else Load(c, m, VerdictFor(vs, m))
  }

  function LoadFresh(c: Cargo, floored: seq<Message>, vs: Verdicts): (r: Cargo)
    requires Labelled(c)
    ensures KeysOf(r.messages) == Union(KeysOf(c.messages), KeysOf(floored)) && r.late == c.late
    ensures Labelled(r) && forall k :: k in c.labels ==> k in r.labels && r.labels[k] == c.labels[k]
  {
    if floored == [] then c
    else
      var n := |floored| - 1;
      assert KeysOf(floored)[..n] == KeysOf(floored[..n]);
      LoadNew(LoadFresh(c, floored[..n], vs), floored[n], vs)
  }

  /** The turn over `floored`, absorbing the stashes of the conversations it covers. */
  function Cover(d: Stashes, floored: seq<Message>, vs: Verdicts, gen: Generation): Cargo {
    var cs := CoveredBy(d, floored);
    if cs == [] then Cargo(floored, vs, [])
    else LoadFresh(LoadHeld(HeldEntries(d.at, cs), floored, vs, gen), floored, vs)
  }

  /** When any stash is covered: each distinct key of the covered stashes and of the fresh batch is in
      the turn exactly once, the held-back ones first, by longest wait and in stash order, and exactly
      those are marked late. */
  lemma CoverCarriesAll(d: Stashes, floored: seq<Message>, vs: Verdicts, gen: Generation)
    requires CoveredBy(d, floored) != []
    ensures
      var cs, r := CoveredBy(d, floored), Cover(d, floored, vs, gen);
      var held := EntryKeys(HeldEntries(d.at, cs));
      && LongestWaitFirst(d.at, cs)
      && r.late == Union([], held)
      && KeysOf(r.messages) == Union(r.late, KeysOf(floored))
      && NoDup(KeysOf(r.messages))
      && (forall k :: k in KeysOf(r.messages) <==> k in held || k in KeysOf(floored))
      && Labelled(r)
  {
    SortIsStable(d.at, StashedAmong(d, Union([], ConversationsOf(floored))));
  }

  /** Every fresh message is aboard. */
  lemma CargoHas(d: Stashes, floored: seq<Message>, vs: Verdicts, gen: Generation, m: Message)
    requires m in floored
    ensures KeyOf(m) in KeysOf(Cover(d, floored, vs, gen).messages)
  {
    hide LoadFresh, LoadHeld;
    var i :| 0 <= i < |floored| && floored[i] == m;
    assert KeysOf(floored)[i] == KeyOf(m);
    if CoveredBy(d, floored) != [] { CoverCarriesAll(d, floored, vs, gen); }
  }

  /** `v` is what a stored entry for `k` may be rendered as under `gen`. */
  ghost predicate StoredLabel(es: seq<StashEntry>, gen: Generation, k: HeldKey, v: Option<Verdict>) {
    exists e :: e in es && KeyOf(e.message) == k && v == EntryVerdict(e, gen)
  }

  ghost predicate TickLabel(vs: Verdicts, k: HeldKey, v: Option<Verdict>) {
    v == (if k in vs then vs[k] else None)
  }

  lemma {:induction false} HeldLabels(es: seq<StashEntry>, floored: seq<Message>, vs: Verdicts, gen: Generation, k: HeldKey)
    requires k in LoadHeld(es, floored, vs, gen).labels
    ensures k in KeysOf(floored) ==> TickLabel(vs, k, LoadHeld(es, floored, vs, gen).labels[k])
    ensures k !in KeysOf(floored) ==> StoredLabel(es, gen, k, LoadHeld(es, floored, vs, gen).labels[k])
  {
    var n := |es| - 1;
    var rest, e := LoadHeld(es[..n], floored, vs, gen), es[n];
    if k in rest.labels {
      HeldLabels(es[..n], floored, vs, gen, k);
      if k !in KeysOf(floored) { StoredLabelExtends(es, gen, k, rest.labels[k]); }
    } else {
      assert k == KeyOf(e.message);
      assert e in es;
    }
  }

  lemma StoredLabelExtends(es: seq<StashEntry>, gen: Generation, k: HeldKey, v: Option<Verdict>)
    requires es != [] && StoredLabel(es[..|es| - 1], gen, k, v)
    ensures StoredLabel(es, gen, k, v)
  {
    var e :| e in es[..|es| - 1] && KeyOf(e.message) == k && v == EntryVerdict(e, gen);
    assert e in es;
  }

  lemma {:induction false} FreshLabels(c: Cargo, floored: seq<Message>, vs: Verdicts, k: HeldKey)
    requires Labelled(c) && k in LoadFresh(c, floored, vs).labels && k !in c.labels
    ensures TickLabel(vs, k, LoadFresh(c, floored, vs).labels[k])
  {
    if floored != [] {
      var n := |floored| - 1;
      if k in LoadFresh(c, floored[..n], vs).labels { FreshLabels(c, floored[..n], vs, k); }
    }
  }

  /** Every label of a turn is this tick's own verdict for that identity, or, on a held-back message the
      batch did not redeliver, the stored one as the current generation allows it. */
  lemma CoverLabels(d: Stashes, floored: seq<Message>, vs: Verdicts, gen: Generation, k: HeldKey)
    requires k in Cover(d, floored, vs, gen).labels
    ensures
      var v := Cover(d, floored, vs, gen).labels[k];
      || TickLabel(vs, k, v)
      || (k in Cover(d, floored, vs, gen).late && k !in KeysOf(floored)
          && StoredLabel(HeldEntries(d.at, CoveredBy(d, floored)), gen, k, v))
  {
    var cs := CoveredBy(d, floored);
    if cs != [] {
      var es := HeldEntries(d.at, cs);
      var held := LoadHeld(es, floored, vs, gen);
      if k in held.labels {
        HeldLabels(es, floored, vs, gen, k);
      } else {
        FreshLabels(held, floored, vs, k);
      }
    }
  }

  // ---------------------------------------------------------------------
  // Exactly which label
  // ---------------------------------------------------------------------

  lemma LoadEntryHas(c: Cargo, e: StashEntry, floored: seq<Message>, vs: Verdicts, gen: Generation)
    requires KeysOf(c.messages) == c.late && Labelled(c)
    ensures
      var k, r := KeyOf(e.message), LoadEntry(c, e, floored, vs, gen);
      && (k !in c.labels ==> k in r.labels && r.labels[k] == HeldLabel(e, floored, vs, gen))
      && (forall x :: x in c.labels ==> x in r.labels && r.labels[x] == c.labels[x])
  {
  }

  lemma NotLoaded(es: seq<StashEntry>, floored: seq<Message>, vs: Verdicts, gen: Generation, k: HeldKey)
    requires forall j :: 0 <= j < |es| ==> KeyOf(es[j].message) != k
    ensures k !in LoadHeld(es, floored, vs, gen).labels
  {
    var r := LoadHeld(es, floored, vs, gen);
    assert k !in EntryKeys(es);
    assert k !in KeysOf(r.messages);
  }

  lemma LoadHeldSnoc(es: seq<StashEntry>, e: StashEntry, floored: seq<Message>, vs: Verdicts, gen: Generation)
    ensures
      var rest := LoadHeld(es, floored, vs, gen);
      KeysOf(rest.messages) == rest.late && Labelled(rest) && LoadHeld(es + [e], floored, vs, gen) == LoadEntry(rest, e, floored, vs, gen)
  {
    assert (es + [e])[..|es|] == es;
  }

  lemma {:induction false} LoadHeldHas(es: seq<StashEntry>, floored: seq<Message>, vs: Verdicts, gen: Generation, i: nat)
    requires i < |es| && forall j :: 0 <= j < i ==> KeyOf(es[j].message) != KeyOf(es[i].message)
    ensures
      var k, r := KeyOf(es[i].message), LoadHeld(es, floored, vs, gen);
      k in r.labels && r.labels[k] == HeldLabel(es[i], floored, vs, gen)
  {
    hide LoadHeld, LoadEntry, HeldLabel;
    var n := |es| - 1;
    var init, e := es[..n], es[n];
    assert es == init + [e];
    if i < n { LoadHeldHas(init, floored, vs, gen, i); } else { NotLoaded(init, floored, vs, gen, KeyOf(e.message)); }
    LoadHeldSnoc(init, e, floored, vs, gen);
    LoadEntryHas(LoadHeld(init, floored, vs, gen), e, floored, vs, gen);
  }

  lemma LoadFreshSnoc(c: Cargo, floored: seq<Message>, x: Message, vs: Verdicts)
    requires Labelled(c)
    ensures LoadFresh(c, floored + [x], vs) == LoadNew(LoadFresh(c, floored, vs), x, vs) && LoadFresh(c, [], vs) == c
  {
    assert (floored + [x])[..|floored|] == floored;
  }

  lemma LoadNewHas(rest: Cargo, x: Message, vs: Verdicts)
    requires Labelled(rest)
    ensures
      var k, r := KeyOf(x), LoadNew(rest, x, vs);
      k in r.labels && r.labels[k] == if k in rest.labels then rest.labels[k] else VerdictFor(vs, x)
  {
    assert KeyOf(x) in rest.labels <==> KeyOf(x) in KeysOf(rest.messages);
  }

  lemma {:induction false} LoadFreshHas(c: Cargo, floored: seq<Message>, vs: Verdicts, m: Message)
    requires Labelled(c) && m in floored
    ensures
      var k, r := KeyOf(m), LoadFresh(c, floored, vs);
      k in r.labels && r.labels[k] == if k in c.labels then c.labels[k] else VerdictFor(vs, m)
  {
    hide LoadFresh, LoadNew, Union, Labelled;
    var n := |floored| - 1;
    var init, x := floored[..n], floored[n];
    assert floored == init + [x];
    var rest := LoadFresh(c, init, vs);
    LoadFreshSnoc(c, init, x, vs);
    if m in init {
      LoadFreshHas(c, init, vs, m);
    } else {
      LoadNewHas(rest, x, vs);
      if KeyOf(m) in rest.labels && KeyOf(m) !in c.labels { FreshLabels(c, init, vs, KeyOf(m)); }
    }
  }

  /** Every fresh message of a covering turn, stashes covered or none, is labelled with exactly what this tick says of it. */
  lemma FreshLabelIsTheTicks(d: Stashes, floored: seq<Message>, vs: Verdicts, gen: Generation, m: Message)
    requires m in floored
    ensures VerdictFor(Cover(d, floored, vs, gen).labels, m) == VerdictFor(vs, m)
  {
    var cs := CoveredBy(d, floored);
    if cs != [] {
      var es := HeldEntries(d.at, cs);
      var held := LoadHeld(es, floored, vs, gen);
      LoadFreshHas(held, floored, vs, m);
      if KeyOf(m) in held.labels {
        var i :| 0 <= i < |floored| && floored[i] == m;
        assert KeysOf(floored)[i] == KeyOf(m);
        HeldLabels(es, floored, vs, gen, KeyOf(m));
      }
    }
  }

  /** A held-back message that this batch does not redeliver is labelled with exactly the verdict stored beside it, except
      that a pass computed under another generation is no verdict. */
  lemma HeldLabelIsTheStored(d: Stashes, floored: seq<Message>, vs: Verdicts, gen: Generation, i: nat)
    requires i < |HeldEntries(d.at, CoveredBy(d, floored))|
    requires
      var es := HeldEntries(d.at, CoveredBy(d, floored));
      && KeyOf(es[i].message) !in KeysOf(floored) && forall j :: 0 <= j < i ==> KeyOf(es[j].message) != KeyOf(es[i].message)
    ensures
      var e, labels := HeldEntries(d.at, CoveredBy(d, floored))[i], Cover(d, floored, vs, gen).labels;
      && KeyOf(e.message) in labels
      && labels[KeyOf(e.message)] == if e.verdict.Some? && e.verdict.value.verified && e.generation != Some(gen) then None else e.verdict
  {
    LoadHeldHas(HeldEntries(d.at, CoveredBy(d, floored)), floored, vs, gen, i);
  }

  // ---------------------------------------------------------------------
  // Accounting
  // ---------------------------------------------------------------------

  /** Clearing the covered stashes removes exactly the keys the turn took from them. */
  lemma {:induction false} ClearTakesHeld(d: Stashes, cs: seq<string>)
    requires d.Valid() && NoDup(cs) && forall c :: c in cs ==> c in d.at
    ensures Held(d) == Held(ClearAll(d, cs)) + multiset(EntryKeys(HeldEntries(d.at, cs)))
  {
    if cs != [] {
      var n := |cs| - 1;
      assert cs == cs[..n] + [cs[n]];
      ClearTakesHeld(d, cs[..n]);
      ClearOneMore(d, cs[..n], cs[n]);
      EntryKeysConcat(HeldEntries(d.at, cs[..n]), d.at[cs[n]].entries);
    }
  }

  lemma ClearOneMore(d: Stashes, cs: seq<string>, c: string)
    requires d.Valid() && c in d.at && c !in cs
    ensures Held(ClearAll(d, cs)) == Held(ClearAll(d, cs).Remove(c)) + multiset(EntryKeys(d.at[c].entries))
  {
    HeldRemove(ClearAll(d, cs), c);
  }

  lemma EntryKeysConcat(a: seq<StashEntry>, b: seq<StashEntry>)
    ensures multiset(EntryKeys(a + b)) == multiset(EntryKeys(a)) + multiset(EntryKeys(b))
  {
    assert EntryKeys(a + b) == EntryKeys(a) + EntryKeys(b);
  }

  lemma CoveredIsDistinct(d: Stashes, floored: seq<Message>)
    ensures NoDup(CoveredBy(d, floored))
  {
    var cs := StashedAmong(d, Union([], ConversationsOf(floored)));
    SortIsStable(d.at, cs);
    SameCountsNoDup(cs, CoveredBy(d, floored));
  }

  lemma SameCountsNoDup(a: seq<string>, b: seq<string>)
    requires NoDup(a) && multiset(a) == multiset(b)
    ensures NoDup(b)
  {
    NoDupCounts(a);
    NoDupCounts(b);
    assert forall x :: x in b ==> x in multiset(a);
  }
}
