/** The stash fields of the reply loop's state object, updated in place. */
module ReplyState {
  import opened OrderedMaps
  import opened Messages
  import opened Stashing
  import opened Covering

  /** A conversation and the stash removed for it. */
  type Taking = (string, Stash)

  class AutoReplyState {
    var deferredByConversation: Stashes

    constructor ()
      ensures deferredByConversation == EmptyMap() && Valid()
    {
      deferredByConversation := EmptyMap();
    }

    ghost predicate Valid()
      reads this
    {
      deferredByConversation.Valid()
    }

    /** Stash a conversation's deferred messages, or merge them into what is already held for it.
        The result is everything that could not be kept. */
    method StashDeferred(c: string, msgs: seq<Message>, vs: Verdicts, now: int, gen: Option<Generation>) returns (drops: seq<Drop>)
      requires Valid()
      modifies this
      ensures Valid()
      ensures deferredByConversation == StashAfter(old(deferredByConversation), c, msgs, vs, now, gen)
      ensures drops == StashDrops(old(deferredByConversation), c, msgs, vs, now, gen)
    {
      ghost var d := deferredByConversation;
      var existing := EntriesOf(deferredByConversation, c);
      var ordered := MergeEntries(existing, msgs, vs, gen);
      var merged := ordered[Overflow(|ordered|)..];
      drops := [];
      var overflowed := MessagesOf(ordered[..Overflow(|ordered|)]);
      if |overflowed| > 0 {
        drops := [Drop(c, overflowed, Overflowed)];
      }
      var since := if c in deferredByConversation.at then deferredByConversation.at[c].since else now;
      deferredByConversation := deferredByConversation.Remove(c).Set(c, Stash(merged, since));
      assert deferredByConversation == Restashed(d, c, msgs, vs, now, gen);
      assert drops == OverflowDrop(c, ordered);
      var evicted := EvictOldestStashes();
      drops := drops + evicted;
    }

    method EvictOldestStashes() returns (drops: seq<Drop>)
      requires Valid()
      modifies this
      ensures Valid()
      ensures deferredByConversation == old(deferredByConversation).EvictTo(CONVERSATION_CAP)
      ensures drops == EvictionDrops(old(deferredByConversation))
    {
      ghost var d := deferredByConversation;
      drops := [];
      while |deferredByConversation.keys| > CONVERSATION_CAP
        invariant Valid()
        invariant deferredByConversation.EvictTo(CONVERSATION_CAP) == d.EvictTo(CONVERSATION_CAP)
        invariant drops + EvictionDrops(deferredByConversation) == EvictionDrops(d)
        decreases |deferredByConversation.keys|
      {
        var oldest := deferredByConversation.keys[0];
        var stash := deferredByConversation.at[oldest];
        ghost var rest := EvictionDrops(deferredByConversation.DropOldest());
        assert drops + ([Drop(oldest, MessagesOf(stash.entries), Evicted)] + rest)
            == drops + [Drop(oldest, MessagesOf(stash.entries), Evicted)] + rest;
        deferredByConversation := deferredByConversation.DropOldest();
        drops := drops + [Drop(oldest, MessagesOf(stash.entries), Evicted)];
      }
    }

    method ListRetryableDeferred(now: int) returns (cs: seq<string>)
      requires Valid()
      ensures cs == RetryOrder(deferredByConversation, now)
    {
      var alive := CollectLive(deferredByConversation, now);
      cs := SortBySince(deferredByConversation.at, alive);
    }

    /** Remove and return the stashes past the retry TTL, longest wait first, at most `limit` of them. */
    method TakeExpiredDeferred(now: int, limit: Option<nat>) returns (out: seq<Taking>)
      requires Valid()
      modifies this
      ensures Valid()
      ensures out == Takings(old(deferredByConversation), Taken(old(deferredByConversation), now, limit))
      ensures deferredByConversation == ClearAll(old(deferredByConversation), Taken(old(deferredByConversation), now, limit))
    {
      ghost var d := deferredByConversation;
      var expired := CollectExpired(deferredByConversation, now);
      var order := SortBySince(deferredByConversation.at, expired);
      var taken := if limit.None? || limit.value > |order| then order else order[..limit.value];
      assert taken == Taken(d, now, limit);
      ExpiredOrderDistinct(d, now);
      TakenDistinct(d, now, limit);
      out := RemoveAll(taken);
    }

    method RemoveAll(cs: seq<string>) returns (out: seq<Taking>)
      requires Valid() && NoDup(cs) && forall c :: c in cs ==> c in deferredByConversation.at
      modifies this
      ensures Valid()
      ensures deferredByConversation == ClearAll(old(deferredByConversation), cs)
      ensures out == Takings(old(deferredByConversation), cs)
    {
      ghost var d := deferredByConversation;
      out := [];
      for i := 0 to |cs|
        invariant deferredByConversation == ClearAll(d, cs[..i])
        invariant out == Takings(d, cs[..i])
      {
        TakeStep(d, cs, i);
        out := out + [(cs[i], deferredByConversation.at[cs[i]])];
        deferredByConversation := deferredByConversation.Remove(cs[i]);
      }
      assert cs[..|cs|] == cs;
    }

    method ClearDeferred(c: string)
      requires Valid()
      modifies this
      ensures Valid() && deferredByConversation == old(deferredByConversation).Remove(c)
    {
      deferredByConversation := deferredByConversation.Remove(c);
    }

    /** Fold the stashes of the conversations a turn covers into it. Nothing is cleared here. */
    method MergeCoveredStashes(floored: seq<Message>, vs: Verdicts, gen: Generation)
      returns (cargo: Cargo, coveredConversations: seq<string>)
      requires Valid()
      ensures coveredConversations == CoveredBy(deferredByConversation, floored)
      ensures cargo == Cover(deferredByConversation, floored, vs, gen)
    {
      coveredConversations := CollectCovered(deferredByConversation, floored);
      if coveredConversations == [] {
        return Cargo(floored, vs, []), [];
      }
      var held := LoadAllHeld(deferredByConversation, coveredConversations, floored, vs, gen);
      cargo := LoadAllFresh(held, floored, vs);
    }
  }

  // ---------------------------------------------------------------------
  // The loops, one each
  // ---------------------------------------------------------------------

  function Taken(d: Stashes, now: int, limit: Option<nat>): (r: seq<string>)
    requires d.Valid()
    ensures forall c :: c in r ==> c in d.at
  {
    var order := ExpiredOrder(d, now);
    if limit.None? || limit.value > |order| then order else order[..limit.value]
  }

  function Takings(d: Stashes, cs: seq<string>): seq<Taking>
    requires forall c :: c in cs ==> c in d.at
  {
    if cs == [] then []
    else
      assert cs == cs[..|cs| - 1] + [cs[|cs| - 1]];
      Takings(d, cs[..|cs| - 1]) + [(cs[|cs| - 1], d.at[cs[|cs| - 1]])]
  }

  lemma {:induction false} NoDupPrefix(s: seq<string>, n: nat)
    requires NoDup(s) && n <= |s|
    ensures NoDup(s[..n])
  {
    if n < |s| {
      NoDupPrefix(s[..|s| - 1], n);
      assert s[..|s| - 1][..n] == s[..n];
    } else {
      assert s[..n] == s;
    }
  }

  lemma TakenDistinct(d: Stashes, now: int, limit: Option<nat>)
    requires d.Valid() && NoDup(ExpiredOrder(d, now))
    ensures NoDup(Taken(d, now, limit))
  {
    var order := ExpiredOrder(d, now);
    if limit.Some? && limit.value <= |order| { NoDupPrefix(order, limit.value); }
  }

  lemma DistinctTail(s: seq<string>, i: nat)
    requires NoDup(s) && i < |s|
    ensures s[i] !in s[..i]
  {
    NoDupPrefix(s, i + 1);
    assert s[..i + 1][..i] == s[..i];
  }

  lemma TakeStep(d: Stashes, cs: seq<string>, i: nat)
    requires d.Valid() && NoDup(cs) && i < |cs| && forall c :: c in cs ==> c in d.at
    ensures cs[i] in ClearAll(d, cs[..i]).at
    ensures ClearAll(d, cs[..i + 1]) == ClearAll(d, cs[..i]).Remove(cs[i])
    ensures Takings(d, cs[..i + 1]) == Takings(d, cs[..i]) + [(cs[i], ClearAll(d, cs[..i]).at[cs[i]])]
  {
    assert cs[..i + 1][..i] == cs[..i];
    DistinctTail(cs, i);
  }

  method CollectLive(d: Stashes, now: int) returns (alive: seq<string>)
    requires d.Valid()
    ensures alive == LiveAmong(d.at, d.keys, now)
  {
    alive := [];
    for i := 0 to |d.keys|
      invariant alive == LiveAmong(d.at, d.keys[..i], now)
    {
      assert d.keys[..i + 1][..i] == d.keys[..i];
      if now - d.at[d.keys[i]].since > RETRY_TTL_MS { continue; }
      alive := alive + [d.keys[i]];
    }
    assert d.keys[..|d.keys|] == d.keys;
  }

  method CollectExpired(d: Stashes, now: int) returns (expired: seq<string>)
    requires d.Valid()
    ensures expired == ExpiredAmong(d.at, d.keys, now)
  {
    expired := [];
    for i := 0 to |d.keys|
      invariant expired == ExpiredAmong(d.at, d.keys[..i], now)
    {
      assert d.keys[..i + 1][..i] == d.keys[..i];
      if now - d.at[d.keys[i]].since > RETRY_TTL_MS {
        expired := expired + [d.keys[i]];
      }
    }
    assert d.keys[..|d.keys|] == d.keys;
  }

  method CollectCovered(d: Stashes, floored: seq<Message>) returns (cs: seq<string>)
    ensures cs == CoveredBy(d, floored)
  {
    var conversations := Union([], ConversationsOf(floored));
    var found := [];
    for i := 0 to |conversations|
      invariant found == StashedAmong(d, conversations[..i])
    {
      assert conversations[..i + 1][..i] == conversations[..i];
      var c := conversations[i];
      if c in d.at && d.at[c].entries != [] {
        found := found + [c];
      }
    }
    assert conversations[..|conversations|] == conversations;
    cs := SortBySince(d.at, found);
  }

  method LoadAllHeld(d: Stashes, cs: seq<string>, floored: seq<Message>, vs: Verdicts, gen: Generation) returns (cargo: Cargo)
    requires forall c :: c in cs ==> c in d.at
    ensures cargo == LoadHeld(HeldEntries(d.at, cs), floored, vs, gen)
  {
    cargo := Cargo([], map[], []);
    ghost var before := [];
    for i := 0 to |cs|
      invariant before == HeldEntries(d.at, cs[..i])
      invariant cargo == LoadHeld(before, floored, vs, gen)
    {
      assert cs[..i + 1][..i] == cs[..i];
      cargo := LoadStash(cargo, before, d.at[cs[i]].entries, floored, vs, gen);
      before := before + d.at[cs[i]].entries;
    }
    assert cs[..|cs|] == cs;
  }

  method LoadAllFresh(held: Cargo, floored: seq<Message>, vs: Verdicts) returns (cargo: Cargo)
    requires Labelled(held)
    ensures cargo == LoadFresh(held, floored, vs)
  {
    cargo := held;
    for i := 0 to |floored|
      invariant cargo == LoadFresh(held, floored[..i], vs)
    {
      assert floored[..i + 1][..i] == floored[..i];
      cargo := LoadNew(cargo, floored[i], vs);
    }
    assert floored[..|floored|] == floored;
  }

  /** Dedupe by message identity: an incoming copy takes the older slot of the one already there. */
  method MergeEntries(existing: seq<StashEntry>, msgs: seq<Message>, vs: Verdicts, gen: Option<Generation>) returns (ordered: seq<StashEntry>)
    ensures ordered == Values(Absorb(File(existing), msgs, vs, gen))
  {
    var byKey := FileAll(existing);
    byKey := AbsorbMessages(byKey, msgs, vs, gen);
    ordered := Values(byKey);
  }

  method FileAll(existing: seq<StashEntry>) returns (byKey: ByKey)
    ensures byKey == File(existing)
  {
    byKey := EmptyMap();
    for i := 0 to |existing|
      invariant byKey == File(existing[..i])
    {
      assert existing[..i + 1][..i] == existing[..i];
      byKey := byKey.Set(KeyOf(existing[i].message), existing[i]);
    }
    assert existing[..|existing|] == existing;
  }

  lemma AbsorbStep(m: ByKey, msgs: seq<Message>, i: nat, vs: Verdicts, gen: Option<Generation>)
    requires Filed(m) && i < |msgs|
    ensures var before := Absorb(m, msgs[..i], vs, gen);
      Absorb(m, msgs[..i + 1], vs, gen) == before.Set(KeyOf(msgs[i]), Incoming(before, msgs[i], vs, gen))
  {
    assert msgs[..i + 1][..i] == msgs[..i];
  }

  lemma LoadHeldStep(es: seq<StashEntry>, e: StashEntry, floored: seq<Message>, vs: Verdicts, gen: Generation)
    ensures LoadHeld(es + [e], floored, vs, gen) == LoadEntry(LoadHeld(es, floored, vs, gen), e, floored, vs, gen)
  {
    assert (es + [e])[..|es|] == es;
  }

  method AbsorbMessages(m0: ByKey, msgs: seq<Message>, vs: Verdicts, gen: Option<Generation>) returns (byKey: ByKey)
    requires Filed(m0)
    ensures byKey == Absorb(m0, msgs, vs, gen)
  {
    byKey := m0;
    for i := 0 to |msgs|
      invariant Filed(byKey) && byKey == Absorb(m0, msgs[..i], vs, gen)
    {
      AbsorbStep(m0, msgs, i, vs, gen);
      var entry := IncomingEntry(byKey, msgs[i], vs, gen);
      byKey := byKey.Set(KeyOf(msgs[i]), entry);
    }
    assert msgs[..|msgs|] == msgs;
  }

  method IncomingEntry(byKey: ByKey, m: Message, vs: Verdicts, gen: Option<Generation>) returns (e: StashEntry)
    ensures e == Incoming(byKey, m, vs, gen)
  {
    var prior := byKey.Get(KeyOf(m));
    var v, g := VerdictFor(vs, m), gen;
    if v == None && prior.Some? {
      v, g := prior.value.verdict, prior.value.generation;
    }
    e := StashEntry(m, v, g);
  }

  /** One more stash's entries into the turn, after those of `before`. */
  method LoadStash(cargo0: Cargo, ghost before: seq<StashEntry>, es: seq<StashEntry>, floored: seq<Message>, vs: Verdicts, gen: Generation)
    returns (cargo: Cargo)
    requires cargo0 == LoadHeld(before, floored, vs, gen)
    ensures cargo == LoadHeld(before + es, floored, vs, gen)
  {
    cargo := cargo0;
    ghost var sofar := before;
    for i := 0 to |es|
      invariant sofar == before + es[..i]
      invariant cargo == LoadHeld(sofar, floored, vs, gen)
    {
      LoadHeldStep(sofar, es[i], floored, vs, gen);
      cargo := LoadEntry(cargo, es[i], floored, vs, gen);
      Snoc(before, es, i);
      sofar := sofar + [es[i]];
    }
    assert es[..|es|] == es;
  }

  lemma Snoc(before: seq<StashEntry>, es: seq<StashEntry>, i: nat)
    requires i < |es|
    ensures before + es[..i + 1] == before + es[..i] + [es[i]]
  {
  }

  lemma {:induction false} ExpiredDistinct(at: map<string, Stash>, cs: seq<string>, now: int)
    requires NoDup(cs) && forall x :: x in cs ==> x in at
    ensures NoDup(ExpiredAmong(at, cs, now))
  {
    if cs != [] {
      var n := |cs| - 1;
      assert cs == cs[..n] + [cs[n]];
      ExpiredDistinct(at, cs[..n], now);
      var r := ExpiredAmong(at, cs[..n], now);
      assert cs[n] !in r;
      assert (r + [cs[n]])[..|r|] == r;
      assert r + [] == r;
    }
  }

  lemma ExpiredOrderDistinct(d: Stashes, now: int)
    requires d.Valid()
    ensures NoDup(ExpiredOrder(d, now))
  {
    ExpiredDistinct(d.at, d.keys, now);
    SortIsStable(d.at, ExpiredAmong(d.at, d.keys, now));
    SameCountsNoDup(ExpiredAmong(d.at, d.keys, now), ExpiredOrder(d, now));
  }
}
