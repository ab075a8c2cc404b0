/** How long the connector remembers an id. The seen FIFO holds SEEN_CAP ids and the ring never evicts an unread
    message, so whether an unread message can be stored again turns on the ring's bound alone. */
module StoreMemory {
  import opened OrderedMaps
  import opened MessageRing
  import opened Ingesting
  import opened StoreRuns

  // ---------------------------------------------------------------------
  // What a session has stored
  // ---------------------------------------------------------------------

  /** The ids of the inbound messages, in order. */
  function InIds(ms: seq<Incoming>): seq<string> {
    if ms == [] then []
    else InIds(ms[..|ms| - 1]) + (if ms[|ms| - 1].direction == In then [ms[|ms| - 1].id] else [])
  }

  function Stores(a: Action): seq<Incoming> {
    match a
    case PollReturns(accepted) => accepted
    case Sent(m) => [m]
    case _ => []
  }

  /** Everything a session has stored, in order. */
  function SessionLog(acts: seq<Action>): seq<Incoming> {
    if acts == [] then [] else SessionLog(acts[..|acts| - 1]) + Stores(acts[|acts| - 1])
  }

  lemma {:induction false} InIdsConcat(a: seq<Incoming>, b: seq<Incoming>)
    ensures InIds(a + b) == InIds(a) + InIds(b)
  {
    if b == [] {
      assert a + b == a;
    } else {
      var n := |b| - 1;
      InIdsConcat(a, b[..n]);
      assert (a + b)[..|a + b| - 1] == a + b[..n];
    }
  }

  function StoredIds(ms: seq<Stored>): (r: seq<string>)
    ensures |r| == |ms| && forall i :: 0 <= i < |ms| ==> r[i] == ms[i].id
  {
    seq(|ms|, i requires 0 <= i < |ms| => ms[i].id)
  }

  lemma {:induction false} UnreadOfFiled(ms: seq<Incoming>, from: nat)
    ensures StoredIds(Unread(Filed(ms, from))) == InIds(ms)
  {
    if ms == [] {
      assert Filed(ms, from) == [];
    } else {
      var n := |ms| - 1;
      var all, init := Filed(ms, from), Filed(ms[..n], from);
      UnreadOfFiled(ms[..n], from);
      assert all[..n] == init;
    }
  }

  // ---------------------------------------------------------------------
  // The seen FIFO is the tail of the inbound ids
  // ---------------------------------------------------------------------

  lemma PrefixDistinct(a: seq<string>, b: seq<string>)
    requires NoDup(a + b)
    ensures NoDup(a)
    decreases |b|
  {
    if b == [] {
      assert a + b == a;
    } else {
      assert (a + b)[..|a + b| - 1] == a + b[..|b| - 1];
      PrefixDistinct(a, b[..|b| - 1]);
    }
  }

  lemma MarkOne(ids: seq<string>, id: string)
    requires id !in ids
    ensures MarkSeen(Newest(ids, SEEN_CAP), id) == Newest(ids + [id], SEEN_CAP)
  {
    assert id !in Newest(ids, SEEN_CAP);
  }

  /** While ids do not repeat, each new one pushes the oldest out. */
  lemma {:induction false} SeenIsTail(ids: seq<string>, ms: seq<Incoming>)
    requires NoDup(ids + InIds(ms))
    ensures MarkAllSeen(Newest(ids, SEEN_CAP), ms) == Newest(ids + InIds(ms), SEEN_CAP)
  {
    if ms == [] {
      assert ids + InIds(ms) == ids;
    } else {
      var n := |ms| - 1;
      var init := ids + InIds(ms[..n]);
      if ms[n].direction == In {
        assert ids + InIds(ms) == init + [ms[n].id];
        PrefixDistinct(init, [ms[n].id]);
        assert (init + [ms[n].id])[..|init|] == init;
        SeenIsTail(ids, ms[..n]);
        MarkOne(init, ms[n].id);
      } else {
        assert InIds(ms) == InIds(ms[..n]);
        SeenIsTail(ids, ms[..n]);
      }
    }
  }

  // ---------------------------------------------------------------------
  // The unread ids are a tail of the inbound ids
  // ---------------------------------------------------------------------

  ghost predicate IsTail(part: seq<string>, all: seq<string>) {
    |part| <= |all| && part == all[|all| - |part|..]
  }

  /** A batch covers the unread messages up to some place, and none after it. */
  ghost predicate CoversTo(ids: seq<string>, c: CursorRecord, p: nat) {
    p <= |ids| && forall i :: 0 <= i < |ids| ==> (Carries(c, ids[i]) <==> i < p)
  }

  ghost predicate CoversPrefix(ids: seq<string>, c: CursorRecord) {
    exists p: nat :: CoversTo(ids, c, p)
  }

  ghost predicate KnownBatch(all: seq<string>, c: CursorRecord) {
    forall m :: m in c.messages ==> m.id in all
  }

  ghost predicate OrderlyCursors(cs: seq<CursorRecord>, unread: seq<string>, all: seq<string>) {
    forall c :: c in cs ==> CoversPrefix(unread, c) && KnownBatch(all, c)
  }

  /** Given the ids of everything inbound so far, `all`: the seen FIFO and the unread messages are tails of them, and
      every retained batch covers the oldest of the unread. */
  ghost predicate Remembers(all: seq<string>, s: Store) {
    && s.seenIds == Newest(all, SEEN_CAP)
    && IsTail(StoredIds(Unread(s.messages)), all)
    && OrderlyCursors(s.cursors, StoredIds(Unread(s.messages)), all)
  }

  lemma TailAppend(part: seq<string>, all: seq<string>, more: seq<string>)
    requires IsTail(part, all)
    ensures IsTail(part + more, all + more)
  {
  }

  lemma CoversAppend(unread: seq<string>, more: seq<string>, all: seq<string>, c: CursorRecord)
    requires CoversPrefix(unread, c) && KnownBatch(all, c) && forall i :: 0 <= i < |more| ==> more[i] !in all
    ensures CoversPrefix(unread + more, c) && KnownBatch(all + more, c)
  {
    var p: nat :| CoversTo(unread, c, p);
    forall i | 0 <= i < |unread + more| ensures Carries(c, (unread + more)[i]) <==> i < p {
      if i >= |unread| { assert (unread + more)[i] == more[i - |unread|]; }
    }
    assert CoversTo(unread + more, c, p);
  }

  lemma NewIds(all: seq<string>, more: seq<string>, i: nat)
    requires NoDup(all + more) && i < |more|
    ensures more[i] !in all
    decreases |more|
  {
    var n := |more| - 1;
    assert (all + more)[..|all + more| - 1] == all + more[..n];
    if i < n { NewIds(all, more[..n], i); } else { assert forall x :: x in all ==> x in all + more[..n]; }
  }

  lemma CursorsAppend(cs: seq<CursorRecord>, unread: seq<string>, more: seq<string>, all: seq<string>)
    requires OrderlyCursors(cs, unread, all) && NoDup(all + more)
    ensures OrderlyCursors(cs, unread + more, all + more)
  {
    forall i | 0 <= i < |more| ensures more[i] !in all { NewIds(all, more, i); }
    forall c | c in cs ensures CoversPrefix(unread + more, c) && KnownBatch(all + more, c) { CoversAppend(unread, more, all, c); }
  }

  lemma StoredIdsConcat(a: seq<Stored>, b: seq<Stored>)
    ensures StoredIds(a + b) == StoredIds(a) + StoredIds(b)
  {
  }

  lemma AddRemembers(all: seq<string>, s: Store, ms: seq<Incoming>, max: nat)
    requires Remembers(all, s) && NoDup(all + InIds(ms))
    ensures Remembers(all + InIds(ms), Added(s, ms, max))
  {
    var r, more := Added(s, ms, max), InIds(ms);
    UnreadAfterAdd(s, ms, max);
    UnreadOfFiled(ms, s.next);
    StoredIdsConcat(Unread(s.messages), Unread(Filed(ms, s.next)));
    SeenIsTail(all, ms);
    TailAppend(StoredIds(Unread(s.messages)), all, more);
    CursorsAppend(s.cursors, StoredIds(Unread(s.messages)), more, all);
    AddFrame(s, ms, max);
  }

  lemma AddFrame(s: Store, ms: seq<Incoming>, max: nat)
    ensures Added(s, ms, max).cursors == s.cursors && Added(s, ms, max).seenIds == MarkAllSeen(s.seenIds, ms)
  {
  }

  // ---------------------------------------------------------------------
  // Reading
  // ---------------------------------------------------------------------

  /** A batch that covers the unread up to `p` takes exactly those out. */
  lemma {:induction false} NotCarriedIsTail(ms: seq<Stored>, c: CursorRecord, p: nat)
    requires CoversTo(StoredIds(ms), c, p)
    ensures NotCarried(ms, c) == ms[p..]
  {
    if ms == [] {
      assert ms[p..] == [];
    } else {
      var n := |ms| - 1;
      var init, ids := ms[..n], StoredIds(ms);
      assert StoredIds(init) == ids[..n];
      assert Carries(c, ids[n]) <==> n < p;
      if p <= n {
        assert CoversTo(StoredIds(init), c, p);
        NotCarriedIsTail(init, c, p);
        assert ms[p..] == init[p..] + [ms[n]];
      } else {
        assert CoversTo(StoredIds(init), c, n);
        NotCarriedIsTail(init, c, n);
        assert init[n..] == [] && ms[p..] == [];
      }
    }
  }

  lemma CoversDrop(ids: seq<string>, c: CursorRecord, p: nat)
    requires p <= |ids| && CoversPrefix(ids, c)
    ensures CoversPrefix(ids[p..], c)
  {
    var q: nat :| CoversTo(ids, c, q);
    var q' := if q <= p then 0 else q - p;
    assert q' <= |ids[p..]|;
    forall i | 0 <= i < |ids[p..]| ensures Carries(c, ids[p..][i]) <==> i < q' { assert ids[p..][i] == ids[p + i]; }
    assert CoversTo(ids[p..], c, q');
  }

  /** The tail of the unread that a read hands out from, after confirming. */
  lemma ConfirmRemembers(all: seq<string>, s: Store, after: Option<string>)
    requires Remembers(all, s)
    ensures
      var r := BeforeTake(s, after);
      r.seenIds == s.seenIds && IsTail(StoredIds(Unread(r.messages)), all) && OrderlyCursors(r.cursors, StoredIds(Unread(r.messages)), all)
  {
    var r, u := BeforeTake(s, after), Unread(s.messages);
    if r != s {
      var n := IndexOfCursor(s.cursors, after.value).value;
      var c := s.cursors[n];
      assert c in s.cursors;
      var p: nat :| CoversTo(StoredIds(u), c, p);
      UnreadAfterConfirm(s.messages, c);
      NotCarriedIsTail(u, c, p);
      assert StoredIds(u[p..]) == StoredIds(u)[p..];
      ConfirmCursors(s.cursors, n, StoredIds(u), p, all);
    }
  }

  lemma SameMessagesCover(a: CursorRecord, b: CursorRecord, ids: seq<string>, all: seq<string>)
    requires a.messages == b.messages && CoversPrefix(ids, a) && KnownBatch(all, a)
    ensures CoversPrefix(ids, b) && KnownBatch(all, b)
  {
    var p: nat :| CoversTo(ids, a, p);
    forall i | 0 <= i < |ids| ensures Carries(a, ids[i]) <==> Carries(b, ids[i]) {
    }
    assert CoversTo(ids, b, p);
  }

  lemma ConfirmCursors(cs: seq<CursorRecord>, n: nat, ids: seq<string>, p: nat, all: seq<string>)
    requires n < |cs| && p <= |ids| && OrderlyCursors(cs, ids, all)
    ensures OrderlyCursors(cs[n := cs[n].(confirmed := true)], ids[p..], all)
  {
    var rs := cs[n := cs[n].(confirmed := true)];
    forall c | c in rs ensures CoversPrefix(ids[p..], c) && KnownBatch(all, c) {
      var i :| 0 <= i < |rs| && rs[i] == c;
      assert cs[i] in cs;
      CoversDrop(ids, cs[i], p);
      SameMessagesCover(cs[i], c, ids[p..], all);
    }
  }

  lemma BatchCovers(u: seq<Stored>, limit: nat, c: CursorRecord, all: seq<string>)
    requires NoDup(StoredIds(u)) && c.messages == Prefix(u, limit) && IsTail(StoredIds(u), all)
    ensures CoversPrefix(StoredIds(u), c) && KnownBatch(all, c)
  {
    BatchCoversTo(u, limit, c);
    var ids := StoredIds(u);
    forall m | m in c.messages ensures m.id in all {
      var k :| 0 <= k < |c.messages| && c.messages[k] == m;
      assert ids[k] == m.id && ids[k] == all[|all| - |ids| + k];
    }
  }

  lemma BatchCoversTo(u: seq<Stored>, limit: nat, c: CursorRecord)
    requires NoDup(StoredIds(u)) && c.messages == Prefix(u, limit)
    ensures CoversPrefix(StoredIds(u), c)
  {
    var ids, p := StoredIds(u), |c.messages|;
    forall i | 0 <= i < |ids| ensures Carries(c, ids[i]) <==> i < p {
      if i < p {
        assert c.messages[i] in c.messages && c.messages[i].id == ids[i];
      } else if Carries(c, ids[i]) {
        var m :| m in c.messages && m.id == ids[i];
        var k :| 0 <= k < p && c.messages[k] == m;
        NoDupPointwise(ids, k, i);
        assert false;
      }
    }
    assert CoversTo(ids, c, p);
  }

  lemma TailDistinct(part: seq<string>, all: seq<string>)
    requires NoDup(all) && IsTail(part, all)
    ensures NoDup(part)
  {
    NoDupSuffix(all, |all| - |part|);
  }

  lemma TakeRemembers(all: seq<string>, s: Store, limit: nat, after: Option<string>, cursor: string)
    requires Remembers(all, s) && NoDup(all)
    ensures Remembers(all, Taken(s, limit, after, cursor))
  {
    hide BeforeTake, OrderlyCursors, Unread, StoredIds, CoversPrefix, KnownBatch;
    var t, c := BeforeTake(s, after), CursorRecord(cursor, Batch(s, limit, after), false);
    ConfirmRemembers(all, s, after);
    TailDistinct(StoredIds(Unread(t.messages)), all);
    BatchCovers(Unread(t.messages), limit, c, all);
    CursorTaken(t.cursors, c, StoredIds(Unread(t.messages)), all);
  }

  lemma CursorTaken(cs: seq<CursorRecord>, c: CursorRecord, unread: seq<string>, all: seq<string>)
    requires OrderlyCursors(cs, unread, all) && CoversPrefix(unread, c) && KnownBatch(all, c)
    ensures OrderlyCursors(Newest(cs + [c], CURSOR_CAP), unread, all)
  {
    hide CoversPrefix, KnownBatch;
    forall x | x in Newest(cs + [c], CURSOR_CAP) ensures x in cs || x == c { assert x in cs + [c]; }
  }

  // ---------------------------------------------------------------------
  // Sessions
  // ---------------------------------------------------------------------

  ghost predicate Distinct(acts: seq<Action>) {
    NoDup(InIds(SessionLog(acts)))
  }

  lemma ActRemembers(all: seq<string>, c: Connector, a: Action, max: nat)
    requires Remembers(all, c.store) && NoDup(all + InIds(Stores(a)))
    ensures Remembers(all + InIds(Stores(a)), Act(c, a, max).store)
  {
    hide Remembers, Added, Taken;
    match a
    case PollReturns(accepted) => AddRemembers(all, c.store, accepted, max);
    case Sent(m) => AddRemembers(all, c.store, [m], max);
    case Reads(limit, after, cursor) =>
      PrefixDistinct(all, []);
      TakeRemembers(all, c.store, limit, after, cursor);
      assert all + [] == all;
    case _ => assert all + [] == all;
  }

  lemma {:induction false} SessionRemembers(cs: seq<Connector>, acts: seq<Action>, max: nat, k: nat, i: nat)
    requires IsSession(cs, acts, max, k) && i <= |acts| && Distinct(acts[..i])
    ensures Remembers(InIds(SessionLog(acts[..i])), cs[i].store)
  {
    if i == 0 {
      assert Unread(cs[0].store.messages) == [];
    } else {
      var init := acts[..i - 1];
      assert acts[..i][..i - 1] == init;
      InIdsConcat(SessionLog(init), Stores(acts[i - 1]));
      PrefixDistinct(InIds(SessionLog(init)), InIds(Stores(acts[i - 1])));
      SessionRemembers(cs, acts, max, k, i - 1);
      ActRemembers(InIds(SessionLog(init)), cs[i - 1], acts[i - 1], max);
      assert cs[i - 1 + 1] == Act(cs[i - 1], acts[i - 1], max);
    }
  }

  /** A poll is under way, and the seen FIFO has forgotten a message the ring still holds unread. */
  ghost predicate ForgotUnread(c: Connector, m: Stored) {
    c.polling && m in c.store.messages && IsUnread(m) && m.id !in c.store.seenIds
  }

  /** With a bound of at most SEEN_CAP + 1, the room check of a poll leaves no unread message forgotten. */
  lemma UnreadIsRemembered(cs: seq<Connector>, acts: seq<Action>, max: nat, k: nat, i: nat, m: Stored)
    requires IsSession(cs, acts, max, k) && k >= 1 && i <= |acts| && Distinct(acts[..i]) && max <= SEEN_CAP + 1
    ensures !ForgotUnread(cs[i], m)
  {
    var s, all := cs[i].store, InIds(SessionLog(acts[..i]));
    if cs[i].polling && m in s.messages && IsUnread(m) {
      Backpressure(cs, acts, max, k, i);
      SessionRemembers(cs, acts, max, k, i);
      UnreadHas(s.messages, m);
      var u := Unread(s.messages);
      var j :| 0 <= j < |u| && u[j] == m;
      var ids := StoredIds(u);
      assert ids[j] == all[|all| - |ids| + j];
      TailHas(all, |all| - |ids| + j);
    }
  }

  lemma TailHas(all: seq<string>, j: nat)
    requires j < |all| <= j + SEEN_CAP
    ensures all[j] in Newest(all, SEEN_CAP)
  {
    var r := Newest(all, SEEN_CAP);
    assert |r| == if |all| <= SEEN_CAP then |all| else SEEN_CAP;
    assert all[j] == r[j - (|all| - |r|)];
  }

  // ---------------------------------------------------------------------
  // A larger bound does forget
  // ---------------------------------------------------------------------

  lemma SessionSnoc(cs: seq<Connector>, acts: seq<Action>, a: Action, max: nat, k: nat) returns (cs': seq<Connector>, acts': seq<Action>)
    requires IsSession(cs, acts, max, k) && Enabled(cs[|acts|], a, k)
    ensures |cs'| == |acts'| + 1 && IsSession(cs', acts', max, k) && acts' == acts + [a] && cs'[|acts'|] == Act(cs[|acts|], a, max)
    ensures SessionLog(acts') == SessionLog(acts) + Stores(a)
  {
    hide Act, Enabled;
    cs', acts' := cs + [Act(cs[|acts|], a, max)], acts + [a];
    assert acts'[..|acts|] == acts;
    forall i | 0 <= i < |acts'| ensures Enabled(cs'[i], acts'[i], k) && cs'[i + 1] == Act(cs'[i], acts'[i], max) {
      if i < |acts| { assert cs'[i] == cs[i] && acts'[i] == acts[i] && cs'[i + 1] == cs[i + 1]; }
    }
  }

  lemma SingleUnread(s: Store, m: Incoming, max: nat)
    requires m.direction == In
    ensures |Unread(Added(s, [m], max).messages)| == |Unread(s.messages)| + 1
  {
    UnreadAfterAdd(s, [m], max);
    assert AllInbound([m]);
    InboundIsUnread([m], s.next);
  }

  /** A session that has stored exactly `ms`, with no poll under way and nothing read. */
  ghost predicate HasStored(cs: seq<Connector>, acts: seq<Action>, ms: seq<Incoming>, max: nat, k: nat) {
    && IsSession(cs, acts, max, k) && SessionLog(acts) == ms
    && !cs[|acts|].polling && |Unread(cs[|acts|].store.messages)| == |ms|
  }

  lemma NothingStored(max: nat, k: nat)
    ensures HasStored([Connector(Store([], [], [], 0), false)], [], [], max, k)
  {
  }

  /** As many inbound messages as the bound can be stored by polls that bring one each. */
  lemma {:induction false} Fill(ms: seq<Incoming>, max: nat, k: nat) returns (cs: seq<Connector>, acts: seq<Action>)
    requires AllInbound(ms) && |ms| <= max && k >= 1
    ensures HasStored(cs, acts, ms, max, k)
    decreases |ms|
  {
    hide HasStored;
    if ms == [] {
      NothingStored(max, k);
      cs, acts := [Connector(MessageRing.Store([], [], [], 0), false)], [];
    } else {
      var n := |ms| - 1;
      cs, acts := Fill(ms[..n], max, k);
      cs, acts := PollOne(cs, acts, ms[..n], ms[n], max, k);
      assert ms[..n] + [ms[n]] == ms;
    }
  }

  lemma PollMayStart(c: Connector, k: nat)
    ensures Enabled(c, PollStarts, k)
  {
  }

  lemma PollMayReturn(c: Connector, m: Incoming, k: nat)
    requires c.polling && k >= 1 && m.direction == In
    ensures Enabled(c, PollReturns([m]), k)
  {
  }

  lemma PollOne(cs: seq<Connector>, acts: seq<Action>, ms: seq<Incoming>, m: Incoming, max: nat, k: nat)
    returns (cs': seq<Connector>, acts': seq<Action>)
    requires HasStored(cs, acts, ms, max, k) && m.direction == In && k >= 1 && |ms| < max
    ensures HasStored(cs', acts', ms + [m], max, k)
  {
    hide Enabled, SessionLog, Unread, Added;
    SingleUnread(cs[|acts|].store, m, max);
    assert Enabled(cs[|acts|], PollStarts, k) by { PollMayStart(cs[|acts|], k); }
    cs', acts' := SessionSnoc(cs, acts, PollStarts, max, k);
    assert SessionLog(acts') == SessionLog(acts) by { assert SessionLog(acts) + [] == SessionLog(acts); }
    assert Enabled(cs'[|acts'|], PollReturns([m]), k) by { PollMayReturn(cs'[|acts'|], m, k); }
    cs', acts' := SessionSnoc(cs', acts', PollReturns([m]), max, k);
  }

  lemma {:induction false} InIdsOfInbound(ms: seq<Incoming>)
    requires AllInbound(ms)
    ensures InIds(ms) == IdsOf(ms)
  {
    if ms != [] {
      var n := |ms| - 1;
      InIdsOfInbound(ms[..n]);
      assert IdsOf(ms) == IdsOf(ms[..n]) + [ms[n].id];
    }
  }

  /** Any SEEN_CAP + 1 messages with distinct ids, stored and not read: the next poll may start, and the first of them
      is forgotten. */
  lemma LargerBoundForgets(ms: seq<Incoming>, max: nat, k: nat) returns (cs: seq<Connector>, acts: seq<Action>, m: Stored)
    requires AllInbound(ms) && |ms| == SEEN_CAP + 1 && NoDup(IdsOf(ms)) && k >= 1 && max > SEEN_CAP + 1
    ensures IsSession(cs, acts, max, k) && Distinct(acts) && ForgotUnread(cs[|acts|], m) && m.id == ms[0].id
  {
    cs, acts := Fill(ms, max, k);
    assert Enabled(cs[|acts|], PollStarts, k) by { PollMayStart(cs[|acts|], k); }
    assert SessionLog(acts) + [] == ms;
    cs, acts := SessionSnoc(cs, acts, PollStarts, max, k);
    InIdsOfInbound(ms);
    assert acts[..|acts|] == acts;
    SessionRemembers(cs, acts, max, k, |acts|);
    m := FirstUnread(cs[|acts|].store, IdsOf(ms));
  }

  lemma FirstUnread(s: Store, ids: seq<string>) returns (m: Stored)
    requires Remembers(ids, s) && |Unread(s.messages)| == |ids| == SEEN_CAP + 1 && NoDup(ids)
    ensures m in s.messages && IsUnread(m) && m.id == ids[0] && m.id !in s.seenIds
  {
    var u := Unread(s.messages);
    assert StoredIds(u) == ids;
    m := u[0];
    assert StoredIds(u)[0] == m.id;
    UnreadHas(s.messages, m);
    FirstIsForgotten(ids);
  }

  lemma FirstIsForgotten(ids: seq<string>)
    requires NoDup(ids) && |ids| == SEEN_CAP + 1
    ensures ids[0] !in Newest(ids, SEEN_CAP)
  {
    var r := Newest(ids, SEEN_CAP);
    forall i | 0 <= i < |r| ensures r[i] != ids[0] { NoDupPointwise(ids, 0, i + 1); }
  }

  function Marks(n: nat): string {
    if n == 0 then "" else Marks(n - 1) + "m"
  }

  lemma {:induction false} MarksLength(n: nat)
    ensures |Marks(n)| == n
  {
    if n > 0 { MarksLength(n - 1); }
  }

  function Numbered(n: nat): (ms: seq<Incoming>)
    ensures |ms| == n && AllInbound(ms) && forall i :: 0 <= i < n ==> ms[i].id == Marks(i)
  {
    seq(n, i requires 0 <= i < n => Incoming(Marks(i), In, ""))
  }

  lemma {:induction false} NumberedDistinct(n: nat)
    ensures NoDup(IdsOf(Numbered(n)))
  {
    if n > 0 {
      var ids, init := IdsOf(Numbered(n)), IdsOf(Numbered(n - 1));
      NumberedDistinct(n - 1);
      assert ids[..n - 1] == init;
      forall i | 0 <= i < n - 1 ensures init[i] != ids[n - 1] {
        MarksLength(i);
        MarksLength(n - 1);
      }
    }
  }

  ghost predicate CanForget(max: nat, k: nat) {
    exists cs, acts, m :: IsSession(cs, acts, max, k) && Distinct(acts) && ForgotUnread(cs[|acts|], m)
  }

  /** While ids do not repeat, a poll can meet a message that is unread in the ring and no longer in the seen FIFO if
      and only if the ring's bound exceeds SEEN_CAP + 1. */
  lemma ForgetsUnreadIff(max: nat, k: nat)
    requires k >= 1
    ensures CanForget(max, k) <==> max > SEEN_CAP + 1
  {
    if max > SEEN_CAP + 1 {
      NumberedDistinct(SEEN_CAP + 1);
      var cs, acts, m := LargerBoundForgets(Numbered(SEEN_CAP + 1), max, k);
    } else {
      forall cs: seq<Connector>, acts: seq<Action>, m | IsSession(cs, acts, max, k) && Distinct(acts) ensures !ForgotUnread(cs[|acts|], m) {
        assert acts[..|acts|] == acts;
        UnreadIsRemembered(cs, acts, max, k, |acts|, m);
      }
    }
  }

  // ---------------------------------------------------------------------
  // Stored again
  // ---------------------------------------------------------------------

  lemma {:induction false} MemberIsCopy(ms: seq<Stored>, m: Stored)
    requires m in ms
    ensures Copies(ms, m.id) >= 1
  {
    var n := |ms| - 1;
    assert ms == ms[..n] + [ms[n]];
    if m in ms[..n] { MemberIsCopy(ms[..n], m); }
  }

  /** The redelivery of an unread message, admitted by the policy, is stored beside it if and only if the seen FIFO
      has forgotten its id. */
  lemma RedeliveryIsStoredAgainIff(s: Store, raw: Raw, p: Policy, verdicts: Judged, max: nat, m: Stored)
    requires m in s.messages && IsUnread(m) && raw.id == Some(m.id)
    requires raw.sender != p.selfId && raw.messageType != "heartbeat" && Trusted(raw, p, verdicts)
    ensures m.id in s.seenIds ==> Added(s, Accepted([raw], p, verdicts, s.seenIds), max) == s
    ensures m.id !in s.seenIds ==> Copies(Added(s, Accepted([raw], p, verdicts, s.seenIds), max).messages, m.id) >= 2
  {
    KeptIffStorable(raw, p, verdicts, s.seenIds);
    assert [raw][..0] == [];
    if m.id in s.seenIds {
      assert Accepted([raw], p, verdicts, s.seenIds) == [];
    } else {
      SingletonAccepted(raw, p, verdicts, s.seenIds);
      AddedBeside(s, AsIncoming(raw), max, m);
    }
  }

  lemma AddedBeside(s: Store, x: Incoming, max: nat, m: Stored)
    requires m in s.messages && IsUnread(m) && x.id == m.id
    ensures Copies(Added(s, [x], max).messages, m.id) >= 2
  {
    hide Trimmed, Unread;
    var excess := |s.messages| + 1 - max;
    var more := Filed([x], s.next);
    TrimKeeps(s.messages, excess, s.next);
    MemberIsCopy(Trimmed(s.messages, excess, s.next).kept, m);
    NewAreKept(s.messages, more, excess, s.next, m.id);
    assert more[..0] == [];
    assert Copies(more, m.id) == 1;
    assert |s.messages + more| - max == excess;
  }
}
