/** The deferred-retry stash: messages that were acked and are waiting for a floor. */
module Stashing {
  import opened OrderedMaps
  import opened Messages

  const MESSAGES_PER_CONVERSATION: nat := 10
  const CONVERSATION_CAP: nat := 50
  /** TURN_TIMEOUT_SECONDS (900) + 60 of floor + 120 of grace, in milliseconds. */
  const RETRY_TTL_MS: int := (900 + 60 + 120) * 1000

  /** One held-back message with the verdict computed for that object and the generation it was computed under. */
  datatype StashEntry = StashEntry(message: Message, verdict: Option<Verdict>, generation: Option<Generation>)

  datatype Stash = Stash(entries: seq<StashEntry>, since: int)

  type Stashes = OMap<string, Stash>

  datatype DropReason = Overflowed | Evicted
  datatype Drop = Drop(conversation: string, messages: seq<Message>, reason: DropReason)

  function MessagesOf(es: seq<StashEntry>): (ms: seq<Message>)
    ensures |ms| == |es| && forall i :: 0 <= i < |es| ==> ms[i] == es[i].message
  {
    seq(|es|, i requires 0 <= i < |es| => es[i].message)
  }

  function EntryKeys(es: seq<StashEntry>): (ks: seq<HeldKey>)
    ensures |ks| == |es| && forall i :: 0 <= i < |es| ==> ks[i] == KeyOf(es[i].message)
  {
    seq(|es|, i requires 0 <= i < |es| => KeyOf(es[i].message))
  }

  // ---------------------------------------------------------------------
  // Merging into one conversation's stash
  // ---------------------------------------------------------------------

  type ByKey = OMap<HeldKey, StashEntry>

  ghost predicate Filed(m: ByKey) {
    m.Valid() && forall k :: k in m.at ==> KeyOf(m.at[k].message) == k
  }

  function File(es: seq<StashEntry>): (m: ByKey)
    ensures Filed(m) && m.keys == Union([], EntryKeys(es))
  {
    if es == [] then EmptyMap()
    else
      var n := |es| - 1;
      assert EntryKeys(es)[..n] == EntryKeys(es[..n]);
      File(es[..n]).Set(KeyOf(es[n].message), es[n])
  }

  /** The entry an incoming message is stashed as: its own verdict and generation, or those already
      held for the very same material when this tick has none for it. */
  function Incoming(m: ByKey, msg: Message, vs: Verdicts, gen: Option<Generation>): StashEntry {
    var k := KeyOf(msg);
    if VerdictFor(vs, msg) == None && k in m.at then StashEntry(msg, m.at[k].verdict, m.at[k].generation)
    else StashEntry(msg, VerdictFor(vs, msg), gen)
  }

  function Absorb(m: ByKey, msgs: seq<Message>, vs: Verdicts, gen: Option<Generation>): (r: ByKey)
    requires Filed(m)
    ensures Filed(r) && r.keys == Union(m.keys, KeysOf(msgs))
  {
    if msgs == [] then m
    else
      var n := |msgs| - 1;
      assert KeysOf(msgs)[..n] == KeysOf(msgs[..n]);
      var rest := Absorb(m, msgs[..n], vs, gen);
      rest.Set(KeyOf(msgs[n]), Incoming(rest, msgs[n], vs, gen))
  }

  function Values(m: ByKey): (es: seq<StashEntry>)
    requires Filed(m)
    ensures EntryKeys(es) == m.keys
    ensures forall i :: 0 <= i < |es| ==> es[i] == m.at[m.keys[i]]
  {
    var es := seq(|m.keys|, i requires 0 <= i < |m.keys| => m.at[m.keys[i]]);
    assert EntryKeys(es) == m.keys;
    es
  }

  function EntriesOf(d: Stashes, c: string): seq<StashEntry> {
    if c in d.at then d.at[c].entries else []
  }

  /** What the conversation would hold without the per-conversation cap, oldest first. */
  function Ordered(d: Stashes, c: string, msgs: seq<Message>, vs: Verdicts, gen: Option<Generation>): (es: seq<StashEntry>)
    ensures EntryKeys(es) == Union(Union([], EntryKeys(EntriesOf(d, c))), KeysOf(msgs))
  {
    Values(Absorb(File(EntriesOf(d, c)), msgs, vs, gen))
  }

  function Overflow(n: nat): nat {
    if n <= MESSAGES_PER_CONVERSATION then 0 else n - MESSAGES_PER_CONVERSATION
  }

  /** The stash map with `c` re-inserted as the newest conversation, before the conversation cap. */
  function Restashed(d: Stashes, c: string, msgs: seq<Message>, vs: Verdicts, now: int, gen: Option<Generation>): (r: Stashes)
    requires d.Valid()
    ensures r.Valid()
  {
    var es := Ordered(d, c, msgs, vs, gen);
    d.Remove(c).Set(c, Stash(es[Overflow(|es|)..], if c in d.at then d.at[c].since else now))
  }

  function StashAfter(d: Stashes, c: string, msgs: seq<Message>, vs: Verdicts, now: int, gen: Option<Generation>): (r: Stashes)
    requires d.Valid()
    ensures r.Valid()
  {
    Restashed(d, c, msgs, vs, now, gen).EvictTo(CONVERSATION_CAP)
  }

  function OverflowDrop(c: string, es: seq<StashEntry>): seq<Drop> {
    if Overflow(|es|) == 0 then [] else [Drop(c, MessagesOf(es[..Overflow(|es|)]), Overflowed)]
  }

  /** The whole stashes the conversation cap pushes out, oldest first. */
  function EvictionDrops(d: Stashes): seq<Drop>
    requires d.Valid()
    decreases |d.keys|
  {
    if |d.keys| <= CONVERSATION_CAP then []
    else [Drop(d.keys[0], MessagesOf(d.at[d.keys[0]].entries), Evicted)] + EvictionDrops(d.DropOldest())
  }

  function StashDrops(d: Stashes, c: string, msgs: seq<Message>, vs: Verdicts, now: int, gen: Option<Generation>): seq<Drop>
    requires d.Valid()
  {
    var r := Restashed(d, c, msgs, vs, now, gen);
    OverflowDrop(c, Ordered(d, c, msgs, vs, gen)) + EvictionDrops(r)
  }

  // ---------------------------------------------------------------------
  // Conservation
  // ---------------------------------------------------------------------

  /** Every key held under the conversations `cs`, with multiplicity. */
  ghost function HeldIn(cs: seq<string>, at: map<string, Stash>): multiset<HeldKey>
    requires forall c :: c in cs ==> c in at
  {
    if cs == [] then multiset{} else HeldIn(cs[..|cs| - 1], at) + multiset(EntryKeys(at[cs[|cs| - 1]].entries))
  }

  ghost function Held(d: Stashes): multiset<HeldKey>
    requires d.Valid()
  {
    HeldIn(d.keys, d.at)
  }

  ghost function DroppedKeys(drops: seq<Drop>): multiset<HeldKey> {
    if drops == [] then multiset{} else DroppedKeys(drops[..|drops| - 1]) + multiset(KeysOf(drops[|drops| - 1].messages))
  }

  lemma {:induction false} DroppedKeysConcat(a: seq<Drop>, b: seq<Drop>)
    ensures DroppedKeys(a + b) == DroppedKeys(a) + DroppedKeys(b)
  {
    if b == [] {
      assert a + b == a;
    } else {
      var n := |b| - 1;
      DroppedKeysConcat(a, b[..n]);
      assert (a + b)[..|a + b| - 1] == a + b[..n];
    }
  }

  lemma {:induction false} HeldInFrame(cs: seq<string>, at: map<string, Stash>, at': map<string, Stash>)
    requires forall c :: c in cs ==> c in at && c in at' && at[c] == at'[c]
    ensures HeldIn(cs, at) == HeldIn(cs, at')
  {
    if cs != [] { HeldInFrame(cs[..|cs| - 1], at, at'); }
  }

  lemma {:induction false} HeldInConcat(a: seq<string>, b: seq<string>, at: map<string, Stash>)
    requires forall c :: c in a + b ==> c in at
    ensures HeldIn(a + b, at) == HeldIn(a, at) + HeldIn(b, at)
  {
    if b == [] {
      assert a + b == a;
    } else {
      var n := |b| - 1;
      assert (a + b)[..|a + b| - 1] == a + b[..n];
      assert forall c :: c in a + b[..n] ==> c in a + b;
      HeldInConcat(a, b[..n], at);
    }
  }

  lemma HeldInSnoc(cs: seq<string>, c: string, at: map<string, Stash>)
    requires forall x :: x in cs + [c] ==> x in at
    ensures HeldIn(cs + [c], at) == HeldIn(cs, at) + multiset(EntryKeys(at[c].entries))
  {
    assert (cs + [c])[..|cs|] == cs;
  }

  lemma {:induction false} HeldInWithout(cs: seq<string>, at: map<string, Stash>, c: string)
    requires NoDup(cs) && c in cs && forall x :: x in cs ==> x in at
    ensures HeldIn(cs, at) == HeldIn(Without(cs, c), at) + multiset(EntryKeys(at[c].entries))
  {
    var n := |cs| - 1;
    var init, last := cs[..n], cs[n];
    assert cs == init + [last];
    HeldInSnoc(init, last, at);
    if last == c {
      assert c !in init;
    } else {
      HeldInWithout(init, at, c);
      HeldInSnoc(Without(init, c), last, at);
    }
  }

  lemma HeldRemove(d: Stashes, c: string)
    requires d.Valid()
    ensures d.Remove(c).Valid()
    ensures Held(d) == Held(d.Remove(c)) + multiset(EntryKeys(EntriesOf(d, c)))
  {
    if c in d.at {
      HeldInWithout(d.keys, d.at, c);
      HeldInFrame(Without(d.keys, c), d.at, d.Remove(c).at);
    } else {
      HeldInFrame(d.keys, d.at, d.Remove(c).at);
    }
  }

  lemma HeldAdd(d: Stashes, c: string, s: Stash)
    requires d.Valid() && c !in d.at
    ensures Held(d.Set(c, s)) == Held(d) + multiset(EntryKeys(s.entries))
  {
    HeldInFrame(d.keys, d.at, d.Set(c, s).at);
    assert d.Set(c, s).keys[..|d.keys|] == d.keys;
  }

  lemma {:induction false} WithoutOldest(ks: seq<string>)
    requires ks != [] && NoDup(ks)
    ensures Without(ks, ks[0]) == ks[1..]
  {
    if |ks| > 1 {
      var n := |ks| - 1;
      WithoutOldest(ks[..n]);
      OldestOnce(ks);
      assert ks[n] in ks[1..];
      assert ks[1..] == ks[..n][1..] + [ks[n]];
    }
  }

  lemma {:induction false} EvictionConserves(d: Stashes)
    requires d.Valid()
    ensures Held(d.EvictTo(CONVERSATION_CAP)) + DroppedKeys(EvictionDrops(d)) == Held(d)
    decreases |d.keys|
  {
    if |d.keys| > CONVERSATION_CAP {
      var oldest, rest := d.keys[0], d.DropOldest();
      EvictionConserves(rest);
      WithoutOldest(d.keys);
      HeldRemove(d, oldest);
      assert d.Remove(oldest) == rest;
      DroppedKeysCons(Drop(oldest, MessagesOf(d.at[oldest].entries), Evicted), EvictionDrops(rest));
      assert KeysOf(MessagesOf(d.at[oldest].entries)) == EntryKeys(d.at[oldest].entries);
    }
  }

  lemma DroppedKeysCons(x: Drop, rest: seq<Drop>)
    ensures DroppedKeys([x] + rest) == multiset(KeysOf(x.messages)) + DroppedKeys(rest)
  {
    DroppedKeysConcat([x], rest);
    assert [x][..0] == [];
    assert DroppedKeys([x]) == DroppedKeys([]) + multiset(KeysOf(x.messages));
  }

  ghost predicate TidyStash(s: Stash) {
    NoDup(EntryKeys(s.entries)) && 0 < |s.entries| <= MESSAGES_PER_CONVERSATION
  }

  /** Well-kept stashes: distinct conversations, and in each at most the cap of distinct messages. */
  ghost predicate Tidy(d: Stashes) {
    && d.Valid() && |d.keys| <= CONVERSATION_CAP
    && forall c :: c in d.at ==> TidyStash(d.at[c])
  }

  lemma {:induction false} UnionOfDistinct(ks: seq<HeldKey>)
    requires NoDup(ks)
    ensures Union([], ks) == ks
  {
    if ks != [] {
      var n := |ks| - 1;
      UnionOfDistinct(ks[..n]);
      assert ks == ks[..n] + [ks[n]];
    }
  }

  /** The keys conversation `c` would hold with no cap: what it held, then each new key once, in arrival order. */
  ghost function Merged(d: Stashes, c: string, msgs: seq<Message>): seq<HeldKey> {
    Union(EntryKeys(EntriesOf(d, c)), KeysOf(msgs))
  }

  lemma OrderedKeys(d: Stashes, c: string, msgs: seq<Message>, vs: Verdicts, gen: Option<Generation>)
    requires Tidy(d)
    ensures EntryKeys(Ordered(d, c, msgs, vs, gen)) == Merged(d, c, msgs) && NoDup(Merged(d, c, msgs))
  {
    UnionOfDistinct(EntryKeys(EntriesOf(d, c)));
  }

  lemma RestashedHeld(d: Stashes, c: string, msgs: seq<Message>, vs: Verdicts, now: int, gen: Option<Generation>)
    requires Tidy(d)
    ensures Held(Restashed(d, c, msgs, vs, now, gen)) + DroppedKeys(OverflowDrop(c, Ordered(d, c, msgs, vs, gen)))
         == Held(d.Remove(c)) + multiset(Merged(d, c, msgs))
  {
    var es := Ordered(d, c, msgs, vs, gen);
    var n := Overflow(|es|);
    OrderedKeys(d, c, msgs, vs, gen);
    var rest := d.Remove(c);
    HeldAdd(rest, c, Stash(es[n..], if c in d.at then d.at[c].since else now));
    SplitKeys(es, n);
    OverflowDropKeys(c, es);
  }

  lemma SplitKeys(es: seq<StashEntry>, n: nat)
    requires n <= |es|
    ensures EntryKeys(es[n..]) == EntryKeys(es)[n..]
    ensures multiset(EntryKeys(es)) == multiset(EntryKeys(es)[..n]) + multiset(EntryKeys(es[n..]))
    ensures NoDup(EntryKeys(es)) ==> NoDup(EntryKeys(es[n..]))
  {
    var ks := EntryKeys(es);
    assert EntryKeys(es[n..]) == ks[n..];
    assert ks == ks[..n] + ks[n..];
    if NoDup(ks) { NoDupSuffix(ks, n); }
  }

  /** Nothing is lost: kept keys and dropped keys together are exactly the old keys and the incoming ones. */
  lemma StashConserves(d: Stashes, c: string, msgs: seq<Message>, vs: Verdicts, now: int, gen: Option<Generation>)
    requires Tidy(d)
    ensures Held(StashAfter(d, c, msgs, vs, now, gen)) + DroppedKeys(StashDrops(d, c, msgs, vs, now, gen))
         == Held(d) - multiset(EntryKeys(EntriesOf(d, c))) + multiset(Merged(d, c, msgs))
  {
    var es := Ordered(d, c, msgs, vs, gen);
    var r := Restashed(d, c, msgs, vs, now, gen);
    HeldRemove(d, c);
    RestashedHeld(d, c, msgs, vs, now, gen);
    EvictionConserves(r);
    DroppedKeysConcat(OverflowDrop(c, es), EvictionDrops(r));
    Balance(Held(r.EvictTo(CONVERSATION_CAP)), DroppedKeys(EvictionDrops(r)), DroppedKeys(OverflowDrop(c, es)),
            Held(r), Held(d.Remove(c)), multiset(EntryKeys(EntriesOf(d, c))), Held(d), multiset(Merged(d, c, msgs)));
  }

  lemma Balance(kept: multiset<HeldKey>, evicted: multiset<HeldKey>, over: multiset<HeldKey>, stashed: multiset<HeldKey>,
                rest: multiset<HeldKey>, was: multiset<HeldKey>, held: multiset<HeldKey>, merged: multiset<HeldKey>)
    requires kept + evicted == stashed && stashed + over == rest + merged && held == rest + was
    ensures kept + (over + evicted) == held - was + merged
  {
    assert kept + (over + evicted) == stashed + over;
    assert held - was == rest;
  }

  lemma OverflowDropKeys(c: string, es: seq<StashEntry>)
    ensures DroppedKeys(OverflowDrop(c, es)) == multiset(EntryKeys(es)[..Overflow(|es|)])
  {
    var n := Overflow(|es|);
    assert KeysOf(MessagesOf(es[..n])) == EntryKeys(es)[..n];
    if n > 0 {
      var d := OverflowDrop(c, es);
      assert d[..0] == [];
      assert DroppedKeys(d) == DroppedKeys(d[..0]) + multiset(KeysOf(d[0].messages));
    }
  }

  lemma EvictionSparesNewest(d: Stashes, c: string)
    requires d.Valid() && 0 < |d.keys| <= CONVERSATION_CAP + 1 && d.keys[|d.keys| - 1] == c
    ensures var r := d.EvictTo(CONVERSATION_CAP);
      && EvictedOldest(d.keys, r.keys) && r.keys != [] && r.keys[|r.keys| - 1] == c
      && c in r.at && forall x :: x in r.at ==> x in d.at && r.at[x] == d.at[x]
  {
    if |d.keys| > CONVERSATION_CAP { OldestIsNotNewest(d); } else { assert c in d.keys; }
  }

  lemma ReinsertKeepsOthers(d: Stashes, c: string, s: Stash)
    requires d.Valid() && |d.keys| <= CONVERSATION_CAP
    ensures var all, r := Without(d.keys, c) + [c], d.Remove(c).Set(c, s).EvictTo(CONVERSATION_CAP);
      && EvictedOldest(all, r.keys) && r.keys != [] && r.keys[|r.keys| - 1] == c
      && c in r.at && r.at[c] == s
      && (forall x :: x in r.at && x != c ==> x in d.at && r.at[x] == d.at[x])
  {
    EvictionSparesNewest(d.Remove(c).Set(c, s), c);
  }

  lemma OldestIsNotNewest(d: Stashes)
    requires d.Valid() && |d.keys| > 1
    ensures var newest, r := d.keys[|d.keys| - 1], d.DropOldest();
      newest in r.at && r.at[newest] == d.at[newest] && r.keys[|r.keys| - 1] == newest
  {
    OldestOnce(d.keys);
    assert d.keys[|d.keys| - 1] in d.keys[1..];
  }

  /** `r` is a tidy successor of `d`: conversation `c` is its newest and holds the newest slice of `ks`
      in order, with its first deferral time; every other surviving stash is untouched; what the
      conversation cap evicted is the oldest. */
  ghost predicate KeptNewest(d: Stashes, c: string, ks: seq<HeldKey>, now: int, r: Stashes) {
    && Tidy(r)
    && c in r.at && r.keys[|r.keys| - 1] == c
    && EntryKeys(r.at[c].entries) == ks[Overflow(|ks|)..]
    && r.at[c].since == (if c in d.at then d.at[c].since else now)
    && (forall x :: x in r.at && x != c ==> x in d.at && r.at[x] == d.at[x])
    && EvictedOldest(Without(d.keys, c) + [c], r.keys)
  }

  /** The newest slice is kept in order, both caps hold, the first deferral time stands, and the
      conversation just stashed is never evicted. */
  lemma StashKeepsNewest(d: Stashes, c: string, msgs: seq<Message>, vs: Verdicts, now: int, gen: Option<Generation>)
    requires Tidy(d) && (msgs != [] || c in d.at)
    ensures KeptNewest(d, c, Merged(d, c, msgs), now, StashAfter(d, c, msgs, vs, now, gen))
  {
    var es := Ordered(d, c, msgs, vs, gen);
    OrderedKeys(d, c, msgs, vs, gen);
    MergedNotEmpty(d, c, msgs);
    ReinsertKeepsNewest(d, c, es, now);
  }

  lemma ReinsertKeepsNewest(d: Stashes, c: string, es: seq<StashEntry>, now: int)
    requires Tidy(d) && es != [] && NoDup(EntryKeys(es))
    ensures var s := Stash(es[Overflow(|es|)..], if c in d.at then d.at[c].since else now);
      KeptNewest(d, c, EntryKeys(es), now, d.Remove(c).Set(c, s).EvictTo(CONVERSATION_CAP))
  {
    var s := Stash(es[Overflow(|es|)..], if c in d.at then d.at[c].since else now);
    SplitKeys(es, Overflow(|es|));
    ReinsertKeepsOthers(d, c, s);
    TidyAfter(d, d.Remove(c).Set(c, s).EvictTo(CONVERSATION_CAP), c, s);
  }

  lemma StashStaysTidy(d: Stashes, c: string, msgs: seq<Message>, vs: Verdicts, now: int, gen: Option<Generation>)
    requires Tidy(d) && (msgs != [] || c in d.at)
    ensures Tidy(StashAfter(d, c, msgs, vs, now, gen))
  {
    StashKeepsNewest(d, c, msgs, vs, now, gen);
  }

  ghost predicate EvictedOldest(all: seq<string>, kept: seq<string>) {
    if |all| <= CONVERSATION_CAP then kept == all else kept == all[1..]
  }

  lemma TidyAfter(d: Stashes, r: Stashes, c: string, s: Stash)
    requires Tidy(d) && r.Valid() && |r.keys| <= CONVERSATION_CAP && TidyStash(s)
    requires forall x :: x in r.at ==> if x == c then r.at[x] == s else x in d.at && r.at[x] == d.at[x]
    ensures Tidy(r)
  {
  }

  lemma MergedNotEmpty(d: Stashes, c: string, msgs: seq<Message>)
    requires Tidy(d) && (msgs != [] || c in d.at)
    ensures Merged(d, c, msgs) != []
  {
    if msgs != [] {
      assert KeysOf(msgs)[0] in Merged(d, c, msgs);
    } else {
      assert EntryKeys(d.at[c].entries)[0] in Merged(d, c, msgs);
    }
  }

  lemma EvictionIsOldest(d: Stashes)
    requires d.Valid() && 0 < |d.keys| <= CONVERSATION_CAP + 1
    ensures EvictionDrops(d)
         == if |d.keys| <= CONVERSATION_CAP then [] else [Drop(d.keys[0], MessagesOf(d.at[d.keys[0]].entries), Evicted)]
  {
    if |d.keys| > CONVERSATION_CAP {
      assert |d.DropOldest().keys| <= CONVERSATION_CAP;
      assert EvictionDrops(d.DropOldest()) == [];
    }
  }

  /** What stashing `ks` under `c` drops: the oldest messages past the conversation's cap, as overflowed, and, with one
      conversation too many, the whole stash re-inserted longest ago, as evicted. */
  ghost predicate DropsExactly(d: Stashes, c: string, ks: seq<HeldKey>, drops: seq<Drop>) {
    var over, others := Overflow(|ks|), Without(d.keys, c);
    var first := if over > 0 then 1 else 0;
    && |drops| == first + (if |others| + 1 > CONVERSATION_CAP then 1 else 0)
    && (over > 0 ==> drops[0].conversation == c && drops[0].reason == Overflowed && KeysOf(drops[0].messages) == ks[..over])
    && (|others| + 1 > CONVERSATION_CAP ==>
          && drops[first].conversation == others[0] && drops[first].reason == Evicted
          && others[0] in d.at && KeysOf(drops[first].messages) == EntryKeys(d.at[others[0]].entries))
  }

  lemma RestashedOrder(d: Stashes, c: string, msgs: seq<Message>, vs: Verdicts, now: int, gen: Option<Generation>)
    requires d.Valid()
    ensures var r := Restashed(d, c, msgs, vs, now, gen); r.keys == Without(d.keys, c) + [c]
    ensures forall x :: x in d.at && x != c ==> x in Restashed(d, c, msgs, vs, now, gen).at && Restashed(d, c, msgs, vs, now, gen).at[x] == d.at[x]
  {
    hide Ordered;
  }

  lemma OldestIsDropped(d: Stashes, c: string, r: Stashes)
    requires Tidy(d) && r.Valid() && r.keys == Without(d.keys, c) + [c] && forall x :: x in d.at && x != c ==> x in r.at && r.at[x] == d.at[x]
    ensures
      var others := Without(d.keys, c);
      && (|others| + 1 > CONVERSATION_CAP ==> others[0] in d.at)
      && EvictionDrops(r)
         == if |others| + 1 <= CONVERSATION_CAP then [] else [Drop(others[0], MessagesOf(d.at[others[0]].entries), Evicted)]
  {
    hide EvictionDrops, TidyStash, NoDup;
    var others := Without(d.keys, c);
    EvictionIsOldest(r);
    if |others| + 1 > CONVERSATION_CAP { assert others[0] in others && r.keys[0] == others[0]; }
  }

  lemma DropKeys(es: seq<StashEntry>, n: nat)
    requires n <= |es|
    ensures KeysOf(MessagesOf(es[..n])) == EntryKeys(es)[..n] && KeysOf(MessagesOf(es)) == EntryKeys(es)
  {
  }

  lemma OverflowExactly(c: string, es: seq<StashEntry>)
    ensures
      var n, o := Overflow(|es|), OverflowDrop(c, es);
      && |o| == (if n > 0 then 1 else 0)
      && (n > 0 ==> o[0].conversation == c && o[0].reason == Overflowed && KeysOf(o[0].messages) == EntryKeys(es)[..n])
  {
    DropKeys(es, Overflow(|es|));
  }

  lemma EvictedExactly(d: Stashes, c: string, r: Stashes)
    requires Tidy(d) && r.Valid() && r.keys == Without(d.keys, c) + [c] && forall x :: x in d.at && x != c ==> x in r.at && r.at[x] == d.at[x]
    ensures
      var others, v := Without(d.keys, c), EvictionDrops(r);
      && |v| == (if |others| + 1 > CONVERSATION_CAP then 1 else 0)
      && (|others| + 1 > CONVERSATION_CAP ==>
            && others[0] in d.at && v[0].conversation == others[0] && v[0].reason == Evicted
            && KeysOf(v[0].messages) == EntryKeys(d.at[others[0]].entries))
  {
    hide EvictionDrops, TidyStash, NoDup;
    OldestIsDropped(d, c, r);
    if |Without(d.keys, c)| + 1 > CONVERSATION_CAP { DropKeys(d.at[Without(d.keys, c)[0]].entries, 0); }
  }

  lemma StashDropsExactly(d: Stashes, c: string, msgs: seq<Message>, vs: Verdicts, now: int, gen: Option<Generation>)
    requires Tidy(d) && (msgs != [] || c in d.at)
    ensures DropsExactly(d, c, Merged(d, c, msgs), StashDrops(d, c, msgs, vs, now, gen))
  {
    hide EvictionDrops, OverflowDrop, Ordered, Merged, TidyStash, Restashed, NoDup, Without;
    OrderedKeys(d, c, msgs, vs, gen);
    RestashedOrder(d, c, msgs, vs, now, gen);
    OverflowExactly(c, Ordered(d, c, msgs, vs, gen));
    EvictedExactly(d, c, Restashed(d, c, msgs, vs, now, gen));
  }

  /** Where a stashed verdict comes from: this call's verdict for that very key, or the one already
      stored beside the same key, with the generation it was computed under. */
  ghost predicate Sourced(e: StashEntry, m: ByKey, vs: Verdicts, gen: Option<Generation>, k: HeldKey) {
    || (k in vs && e.verdict == vs[k] && e.generation == gen)
    || (k in m.at && e.verdict == m.at[k].verdict && e.generation == m.at[k].generation)
    || e.verdict == None
  }

  lemma {:induction false} AbsorbedVerdicts(m: ByKey, msgs: seq<Message>, vs: Verdicts, gen: Option<Generation>, k: HeldKey)
    requires Filed(m) && k in Absorb(m, msgs, vs, gen).at
    ensures Sourced(Absorb(m, msgs, vs, gen).at[k], m, vs, gen, k)
  {
    if msgs != [] {
      var n := |msgs| - 1;
      var rest := Absorb(m, msgs[..n], vs, gen);
      if k in rest.at { AbsorbedVerdicts(m, msgs[..n], vs, gen, k); }
      if k == KeyOf(msgs[n]) { assert Sourced(Incoming(rest, msgs[n], vs, gen), m, vs, gen, k); }
    }
  }

  lemma {:induction false} FiledEntries(es: seq<StashEntry>, k: HeldKey)
    requires k in File(es).at
    ensures File(es).at[k] in es
  {
    var n := |es| - 1;
    var last := es[n];
    assert last in es;
    if k != KeyOf(last.message) {
      FiledEntries(es[..n], k);
      var e := File(es[..n]).at[k];
      assert File(es).at[k] == e;
      assert e in es[..n];
    }
  }

  /** Every entry a stash holds afterwards is an old one of the same conversation map, or carries, for
      its own key, this call's verdict and generation, an old entry's, or no verdict. */
  lemma StashedVerdicts(d: Stashes, c: string, msgs: seq<Message>, vs: Verdicts, now: int, gen: Option<Generation>, x: string, e: StashEntry)
    requires d.Valid()
    requires x in StashAfter(d, c, msgs, vs, now, gen).at && e in StashAfter(d, c, msgs, vs, now, gen).at[x].entries
    ensures
      || (x in d.at && e in d.at[x].entries)
      || (x == c && Inherited(e, EntriesOf(d, c), vs, gen))
  {
    EvictionKeeps(Restashed(d, c, msgs, vs, now, gen), CONVERSATION_CAP);
    if x == c {
      MergedVerdicts(EntriesOf(d, c), msgs, vs, gen, e);
    }
  }

  lemma MergedVerdicts(held: seq<StashEntry>, msgs: seq<Message>, vs: Verdicts, gen: Option<Generation>, e: StashEntry)
    requires e in Values(Absorb(File(held), msgs, vs, gen))
    ensures Inherited(e, held, vs, gen)
  {
    var byKey := Absorb(File(held), msgs, vs, gen);
    var es := Values(byKey);
    var i :| 0 <= i < |es| && es[i] == e;
    var k := byKey.keys[i];
    AbsorbedVerdicts(File(held), msgs, vs, gen, k);
    if k in File(held).at { FiledEntries(held, k); }
  }

  ghost predicate Inherited(e: StashEntry, es: seq<StashEntry>, vs: Verdicts, gen: Option<Generation>) {
    var k := KeyOf(e.message);
    || (k in vs && e.verdict == vs[k] && e.generation == gen)
    || (exists o :: o in es && KeyOf(o.message) == k && o.verdict == e.verdict && o.generation == e.generation)
    || e.verdict == None
  }

  // ---------------------------------------------------------------------
  // Exactly which verdict is stored
  // ---------------------------------------------------------------------

  /** What a stash keeps beside a message of this call: the call's verdict and generation if it has a verdict, else those
      already held beside the same identity, else no verdict under this generation. */
  ghost predicate Labels(e: StashEntry, held: ByKey, vs: Verdicts, gen: Option<Generation>) {
    var k := KeyOf(e.message);
    if k in vs && vs[k].Some? then e.verdict == vs[k] && e.generation == gen
    else if k in held.at then e.verdict == held.at[k].verdict && e.generation == held.at[k].generation
    else e.verdict == None && e.generation == gen
  }

  lemma IncomingExactly(rest: ByKey, held: ByKey, msg: Message, vs: Verdicts, gen: Option<Generation>)
    requires KeyOf(msg) in rest.at ==> rest.at[KeyOf(msg)].message == msg || KeyOf(rest.at[KeyOf(msg)].message) == KeyOf(msg)
    requires KeyOf(msg) in rest.at ==> Labels(rest.at[KeyOf(msg)], held, vs, gen) || (KeyOf(msg) in held.at && rest.at[KeyOf(msg)] == held.at[KeyOf(msg)])
    requires KeyOf(msg) in held.at ==> KeyOf(msg) in rest.at
    ensures Labels(Incoming(rest, msg, vs, gen), held, vs, gen)
  {
  }

  lemma AbsorbSnoc(m: ByKey, msgs: seq<Message>, msg: Message, vs: Verdicts, gen: Option<Generation>)
    requires Filed(m)
    ensures
      var rest := Absorb(m, msgs, vs, gen);
      Filed(rest) && Absorb(m, msgs + [msg], vs, gen) == rest.Set(KeyOf(msg), Incoming(rest, msg, vs, gen))
  {
    assert (msgs + [msg])[..|msgs|] == msgs;
  }

  /** `r` holds under `k` what stashing `ks` onto `m` makes of it. */
  ghost predicate Absorbed(m: ByKey, ks: seq<HeldKey>, vs: Verdicts, gen: Option<Generation>, r: ByKey, k: HeldKey) {
    && (k in m.at ==> k in r.at)
    && (k in r.at ==> KeyOf(r.at[k].message) == k)
    && (k in r.at && k !in ks ==> k in m.at && r.at[k] == m.at[k])
    && (k in r.at && k in ks ==> Labels(r.at[k], m, vs, gen))
  }

  lemma AbsorbedStep(m: ByKey, ks: seq<HeldKey>, vs: Verdicts, gen: Option<Generation>, rest: ByKey, msg: Message, k: HeldKey)
    requires Absorbed(m, ks, vs, gen, rest, k)
    ensures Absorbed(m, ks + [KeyOf(msg)], vs, gen, rest.Set(KeyOf(msg), Incoming(rest, msg, vs, gen)), k)
  {
    if k == KeyOf(msg) { IncomingExactly(rest, m, msg, vs, gen); }
  }

  lemma {:induction false} AbsorbedExactly(m: ByKey, msgs: seq<Message>, vs: Verdicts, gen: Option<Generation>, k: HeldKey)
    requires Filed(m)
    ensures Absorbed(m, KeysOf(msgs), vs, gen, Absorb(m, msgs, vs, gen), k)
  {
    if msgs != [] {
      hide Absorbed, Incoming, Absorb, Filed, Union;
      var n := |msgs| - 1;
      var init, msg := msgs[..n], msgs[n];
      assert msgs == init + [msg] && KeysOf(msgs) == KeysOf(init) + [KeyOf(msg)];
      AbsorbSnoc(m, init, msg, vs, gen);
      AbsorbedExactly(m, init, vs, gen, k);
      AbsorbedStep(m, KeysOf(init), vs, gen, Absorb(m, init, vs, gen), msg, k);
    }
  }

  /** Every entry of the conversation just stashed is an old one, untouched, or carries exactly what this call says. */
  lemma StashedExactly(d: Stashes, c: string, msgs: seq<Message>, vs: Verdicts, now: int, gen: Option<Generation>, e: StashEntry)
    requires d.Valid() && c in StashAfter(d, c, msgs, vs, now, gen).at && e in StashAfter(d, c, msgs, vs, now, gen).at[c].entries
    ensures KeyOf(e.message) !in KeysOf(msgs) ==> e in EntriesOf(d, c)
    ensures KeyOf(e.message) in KeysOf(msgs) ==> Labels(e, File(EntriesOf(d, c)), vs, gen)
  {
    EvictionKeeps(Restashed(d, c, msgs, vs, now, gen), CONVERSATION_CAP);
    var byKey := Absorb(File(EntriesOf(d, c)), msgs, vs, gen);
    var es := Values(byKey);
    assert e in es;
    var i :| 0 <= i < |es| && es[i] == e;
    var k := byKey.keys[i];
    assert KeyOf(e.message) == k;
    AbsorbedExactly(File(EntriesOf(d, c)), msgs, vs, gen, k);
    if k !in KeysOf(msgs) { FiledEntries(EntriesOf(d, c), k); }
  }

  /** With distinct identities, what is filed under one is the entry itself. */
  lemma FileSnoc(es: seq<StashEntry>, e: StashEntry)
    ensures File(es + [e]) == File(es).Set(KeyOf(e.message), e)
  {
    assert (es + [e])[..|es|] == es;
  }

  lemma {:induction false} FiledIsTheEntry(es: seq<StashEntry>, i: nat)
    requires NoDup(EntryKeys(es)) && i < |es|
    ensures KeyOf(es[i].message) in File(es).at && File(es).at[KeyOf(es[i].message)] == es[i]
  {
    hide File, Filed, Union;
    var n := |es| - 1;
    var init, ks := es[..n], EntryKeys(es);
    assert es == init + [es[n]] && ks[..n] == EntryKeys(init);
    FileSnoc(init, es[n]);
    if i < n {
      FiledIsTheEntry(init, i);
      assert ks[i] in ks[..n] && ks[n] !in ks[..n];
    }
  }

  lemma {:induction false} FiledOnlyEntries(es: seq<StashEntry>, k: HeldKey)
    ensures k in File(es).at <==> k in EntryKeys(es)
  {
    if es != [] {
      var n := |es| - 1;
      assert EntryKeys(es) == EntryKeys(es[..n]) + [KeyOf(es[n].message)];
      FiledOnlyEntries(es[..n], k);
    }
  }
}
