/** The MCP connector's bounded message store, as a value: the ring, the cursor copies and the seen-id FIFO.

    Reads are at least once. Nothing unread is ever evicted; a message becomes read only when a batch that
    was handed out with its id is confirmed; a retained cursor replays its original batch. */
module MessageRing {
  import opened OrderedMaps

  const SEEN_CAP: nat := 500
  const CURSOR_CAP: nat := 16

  datatype Direction = In | Out

  /** `serial` is the stored object's identity: two stored messages may share an id, never a serial.
      `delivered` is the cursor of the confirmed read; none while unread. */
  datatype Stored = Stored(serial: nat, id: string, direction: Direction, text: string, delivered: Option<string>)

  datatype Incoming = Incoming(id: string, direction: Direction, text: string)

  datatype CursorRecord = CursorRecord(cursor: string, messages: seq<Stored>, confirmed: bool)

  datatype Store = Store(messages: seq<Stored>, cursors: seq<CursorRecord>, seenIds: seq<string>, next: nat)

  predicate IsUnread(m: Stored) {
    m.direction == In && m.delivered.None?
  }

  function Unread(ms: seq<Stored>): seq<Stored> {
    if ms == [] then [] else Unread(ms[..|ms| - 1]) + (if IsUnread(ms[|ms| - 1]) then [ms[|ms| - 1]] else [])
  }

  lemma {:induction false} UnreadHas(ms: seq<Stored>, m: Stored)
    ensures m in Unread(ms) <==> m in ms && IsUnread(m)
  {
    if ms != [] {
      var n := |ms| - 1;
      UnreadHas(ms[..n], m);
      assert ms == ms[..n] + [ms[n]];
    }
  }

  lemma {:induction false} UnreadSize(ms: seq<Stored>)
    ensures |Unread(ms)| <= |ms|
  {
    if ms != [] { UnreadSize(ms[..|ms| - 1]); }
  }

  // ---------------------------------------------------------------------
  // Adding
  // ---------------------------------------------------------------------

  function StoredAs(m: Incoming, serial: nat): Stored {
    Stored(serial, m.id, m.direction, m.text, if m.direction == In then None else Some("self"))
  }

  function Filed(ms: seq<Incoming>, from: nat): (r: seq<Stored>)
    ensures |r| == |ms| && forall i :: 0 <= i < |ms| ==> r[i] == StoredAs(ms[i], from + i)
  {
    seq(|ms|, i requires 0 <= i < |ms| => StoredAs(ms[i], from + i))
  }

  function MarkSeen(ids: seq<string>, id: string): seq<string> {
    if id in ids then ids else Newest(ids + [id], SEEN_CAP)
  }

  function MarkAllSeen(ids: seq<string>, ms: seq<Incoming>): seq<string> {
    if ms == [] then ids
    else
      var last := ms[|ms| - 1];
      var rest := MarkAllSeen(ids, ms[..|ms| - 1]);
      if last.direction == In then MarkSeen(rest, last.id) else rest
  }

  /** The eviction pass: oldest first, at most `excess` messages, never an unread one, never one of the
      messages just added (serials from `fresh`). */
  datatype Trim = Trim(kept: seq<Stored>, excess: int)

  function TrimStep(t: Trim, m: Stored, added: nat): Trim {
    if t.excess <= 0 || IsUnread(m) || m.serial >= added then Trim(t.kept + [m], t.excess) else Trim(t.kept, t.excess - 1)
  }

  function Trimmed(ms: seq<Stored>, excess: int, added: nat): Trim {
    if ms == [] then Trim([], excess) else TrimStep(Trimmed(ms[..|ms| - 1], excess, added), ms[|ms| - 1], added)
  }

  function Added(s: Store, ms: seq<Incoming>, max: nat): Store {
    if ms == [] then s
    else
      var all := s.messages + Filed(ms, s.next);
      s.(messages := Trimmed(all, |all| - max, s.next).kept,
         seenIds := MarkAllSeen(s.seenIds, ms), next := s.next + |ms|)
  }

  predicate HasRoom(s: Store, max: nat) {
    |Unread(s.messages)| < max
  }

  // ---------------------------------------------------------------------
  // Reading
  // ---------------------------------------------------------------------

  predicate Carries(c: CursorRecord, id: string) {
    exists m :: m in c.messages && m.id == id
  }

  function IndexOfCursor(cs: seq<CursorRecord>, cursor: string): (r: Option<nat>)
    ensures r.Some? ==> r.value < |cs| && cs[r.value].cursor == cursor
    ensures r.None? <==> forall c :: c in cs ==> c.cursor != cursor
  {
    if cs == [] then None
    else
      var n := |cs| - 1;
      assert cs == cs[..n] + [cs[n]];
      var r := IndexOfCursor(cs[..n], cursor);
      if r.Some? then r else if cs[n].cursor == cursor then Some(n) else None
  }

  function MarkRead(ms: seq<Stored>, c: CursorRecord): (r: seq<Stored>)
    ensures |r| == |ms|
    ensures forall i :: 0 <= i < |ms| ==>
      r[i] == (if Carries(c, ms[i].id) && ms[i].delivered.None? then ms[i].(delivered := Some(c.cursor)) else ms[i])
  {
    seq(|ms|, i requires 0 <= i < |ms| =>
      if Carries(c, ms[i].id) && ms[i].delivered.None? then ms[i].(delivered := Some(c.cursor)) else ms[i])
  }

  function Confirmed(s: Store, cursor: string): Store {
    var i := IndexOfCursor(s.cursors, cursor);
    if i.None? then s
    else s.(messages := MarkRead(s.messages, s.cursors[i.value]),
            cursors := s.cursors[i.value := s.cursors[i.value].(confirmed := true)])
  }

  /** An absent or empty cursor confirms nothing. */
  function BeforeTake(s: Store, after: Option<string>): Store {
    if after.Some? && after.value != "" then Confirmed(s, after.value) else s
  }

  function Prefix<T>(s: seq<T>, limit: nat): (r: seq<T>)
    ensures r <= s && |r| <= limit && (|s| <= limit ==> r == s)
  {
    if |s| <= limit then s else s[..limit]
  }

  function Batch(s: Store, limit: nat, after: Option<string>): seq<Stored> {
    Prefix(Unread(BeforeTake(s, after).messages), limit)
  }

  function Taken(s: Store, limit: nat, after: Option<string>, cursor: string): Store {
    var t := BeforeTake(s, after);
    t.(cursors := Newest(t.cursors + [CursorRecord(cursor, Batch(s, limit, after), false)], CURSOR_CAP))
  }

  function Replayed(s: Store, cursor: string): Option<seq<Stored>> {
    var i := IndexOfCursor(s.cursors, cursor);
    if i.None? then None else Some(s.cursors[i.value].messages)
  }

  // ---------------------------------------------------------------------
  // Eviction
  // ---------------------------------------------------------------------

  /** Nothing unread and nothing just added is dropped, nothing is invented and the order stands. */
  lemma {:induction false} TrimKeeps(ms: seq<Stored>, excess: int, added: nat)
    ensures
      var r := Trimmed(ms, excess, added).kept;
      && (forall m :: m in r ==> m in ms)
      && (forall m :: m in ms && (IsUnread(m) || m.serial >= added) ==> m in r)
      && Unread(r) == Unread(ms)
  {
    if ms != [] {
      var n := |ms| - 1;
      assert ms == ms[..n] + [ms[n]];
      TrimKeeps(ms[..n], excess, added);
      var kept := Trimmed(ms[..n], excess, added).kept;
      assert (kept + [ms[n]])[..|kept|] == kept;
    }
  }

  function Evictable(ms: seq<Stored>, added: nat): nat {
    if ms == [] then 0
    else Evictable(ms[..|ms| - 1], added) + (if IsUnread(ms[|ms| - 1]) || ms[|ms| - 1].serial >= added then 0 else 1)
  }

  /** The pass drops as many as it may: all the excess, or everything evictable. */
  lemma {:induction false} TrimSize(ms: seq<Stored>, excess: int, added: nat)
    ensures
      var t := Trimmed(ms, excess, added);
      && |t.kept| - t.excess == |ms| - excess
      && (excess <= 0 ==> t.excess == excess)
      && (excess > 0 ==> t.excess >= 0)
      && (t.excess > 0 ==> |t.kept| == |ms| - Evictable(ms, added))
  {
    if ms != [] { TrimSize(ms[..|ms| - 1], excess, added); }
  }

  ghost predicate Ascending(ms: seq<Stored>, below: nat) {
    ms == [] || (ms[|ms| - 1].serial < below && Ascending(ms[..|ms| - 1], ms[|ms| - 1].serial))
  }

  lemma {:induction false} AscendingBelow(ms: seq<Stored>, below: nat, m: Stored)
    requires Ascending(ms, below) && m in ms
    ensures m.serial < below
  {
    var n := |ms| - 1;
    assert ms == ms[..n] + [ms[n]];
    if m != ms[n] { AscendingBelow(ms[..n], ms[n].serial, m); }
  }

  lemma {:induction false} AscendingWider(ms: seq<Stored>, below: nat, wider: nat)
    requires Ascending(ms, below) && below <= wider
    ensures Ascending(ms, wider)
  {
  }

  /** Only the old, non-unread messages are evictable. */
  lemma {:induction false} EvictableCount(ms: seq<Stored>, added: nat)
    requires forall m :: m in ms ==> m.serial < added
    ensures Evictable(ms, added) + |Unread(ms)| == |ms|
  {
    if ms != [] {
      var n := |ms| - 1;
      assert ms == ms[..n] + [ms[n]];
      EvictableCount(ms[..n], added);
    }
  }

  lemma {:induction false} EvictableFiled(ms: seq<Stored>, more: seq<Stored>, added: nat)
    requires forall m :: m in more ==> m.serial >= added
    ensures Evictable(ms + more, added) == Evictable(ms, added)
  {
    if more == [] {
      assert ms + more == ms;
    } else {
      var n := |more| - 1;
      assert more == more[..n] + [more[n]];
      assert (ms + more)[..|ms + more| - 1] == ms + more[..n];
      EvictableFiled(ms, more[..n], added);
    }
  }

  ghost predicate Valid(s: Store) {
    Ascending(s.messages, s.next)
  }

  /** The size of the ring after an add: within the bound, or no more than the unread plus what was added. */
  lemma AddedSize(s: Store, ms: seq<Incoming>, max: nat)
    requires Valid(s) && ms != []
    ensures |Added(s, ms, max).messages| <= max || |Added(s, ms, max).messages| <= |Unread(s.messages)| + |ms|
  {
    var more := Filed(ms, s.next);
    var all := s.messages + more;
    TrimSize(all, |all| - max, s.next);
    EvictableFiled(s.messages, more, s.next);
    forall m | m in s.messages ensures m.serial < s.next { AscendingBelow(s.messages, s.next, m); }
    EvictableCount(s.messages, s.next);
  }

  lemma {:induction false} TrimAscending(ms: seq<Stored>, excess: int, added: nat, below: nat)
    requires Ascending(ms, below)
    ensures Ascending(Trimmed(ms, excess, added).kept, below)
  {
    if ms != [] {
      var n := |ms| - 1;
      TrimAscending(ms[..n], excess, added, ms[n].serial);
      var kept := Trimmed(ms[..n], excess, added).kept;
      AscendingWider(kept, ms[n].serial, below);
      assert (kept + [ms[n]])[..|kept|] == kept;
    }
  }

  lemma {:induction false} AppendAscending(ms: seq<Stored>, more: seq<Incoming>, next: nat)
    requires Ascending(ms, next)
    ensures Ascending(ms + Filed(more, next), next + |more|)
  {
    if more == [] {
      assert ms + Filed(more, next) == ms;
    } else {
      var n := |more| - 1;
      AppendAscending(ms, more[..n], next);
      var all, init := ms + Filed(more, next), ms + Filed(more[..n], next);
      assert all == init + [StoredAs(more[n], next + n)];
      assert all[..|all| - 1] == init;
    }
  }

  lemma AddedValid(s: Store, ms: seq<Incoming>, max: nat)
    requires Valid(s)
    ensures Valid(Added(s, ms, max))
  {
    AppendAscending(s.messages, ms, s.next);
    var all, below := s.messages + Filed(ms, s.next), s.next + |ms|;
    TrimAscending(all, |all| - max, s.next, below);
  }

  lemma {:induction false} SameSerialsAscending(ms: seq<Stored>, ns: seq<Stored>, below: nat)
    requires Ascending(ms, below) && |ns| == |ms| && forall i :: 0 <= i < |ms| ==> ns[i].serial == ms[i].serial
    ensures Ascending(ns, below)
  {
    if ms != [] { SameSerialsAscending(ms[..|ms| - 1], ns[..|ns| - 1], ms[|ms| - 1].serial); }
  }

  lemma TakenValid(s: Store, limit: nat, after: Option<string>, cursor: string)
    requires Valid(s)
    ensures Valid(Taken(s, limit, after, cursor))
  {
    SameSerialsAscending(s.messages, BeforeTake(s, after).messages, s.next);
  }

  lemma {:induction false} UnreadConcat(a: seq<Stored>, b: seq<Stored>)
    ensures Unread(a + b) == Unread(a) + Unread(b)
  {
    if b == [] {
      assert a + b == a;
    } else {
      var n := |b| - 1;
      assert b == b[..n] + [b[n]];
      assert (a + b)[..|a + b| - 1] == a + b[..n];
      UnreadConcat(a, b[..n]);
    }
  }

  lemma TrimUnread(a: seq<Stored>, b: seq<Stored>, excess: int, added: nat)
    ensures Unread(Trimmed(a + b, excess, added).kept) == Unread(a) + Unread(b)
  {
    TrimKeeps(a + b, excess, added);
    UnreadConcat(a, b);
  }

  /** An add only appends to the unread sequence: whatever is evicted, nothing unread is. */
  lemma UnreadAfterAdd(s: Store, ms: seq<Incoming>, max: nat)
    ensures Unread(Added(s, ms, max).messages) == Unread(s.messages) + Unread(Filed(ms, s.next))
  {
    if ms == [] {
      assert Unread(Filed(ms, s.next)) == [];
    } else {
      AddedTrims(s, ms, max, Filed(ms, s.next));
    }
  }

  lemma AddedTrims(s: Store, ms: seq<Incoming>, max: nat, more: seq<Stored>)
    requires ms != [] && more == Filed(ms, s.next)
    ensures Unread(Added(s, ms, max).messages) == Unread(s.messages) + Unread(more)
  {
    TrimUnread(s.messages, more, |s.messages + more| - max, s.next);
  }

  /** Whatever the ring holds after an add it held before, or it was just added. */
  lemma AddedFrom(s: Store, ms: seq<Incoming>, max: nat, m: Stored)
    requires m in Added(s, ms, max).messages
    ensures m in s.messages || m.serial >= s.next
  {
    var all := s.messages + Filed(ms, s.next);
    if ms != [] { TrimKeeps(all, |all| - max, s.next); }
  }

  // ---------------------------------------------------------------------
  // Copies of one id
  // ---------------------------------------------------------------------

  function Copies(ms: seq<Stored>, id: string): nat {
    if ms == [] then 0 else Copies(ms[..|ms| - 1], id) + (if ms[|ms| - 1].id == id then 1 else 0)
  }

  lemma CopiesSnoc(ms: seq<Stored>, m: Stored, id: string)
    ensures Copies(ms + [m], id) == Copies(ms, id) + (if m.id == id then 1 else 0)
  {
    assert (ms + [m])[..|ms|] == ms;
  }

  /** The message at `i` outlives an eviction of `excess`: it may not go, or enough before it may. */
  predicate Survives(ms: seq<Stored>, i: nat, excess: int, added: nat)
    requires i < |ms|
  {
    IsUnread(ms[i]) || ms[i].serial >= added || Evictable(ms[..i], added) >= excess
  }

  /** A copy of `id` outlives it. */
  ghost predicate Spared(ms: seq<Stored>, id: string, excess: int, added: nat) {
    exists i :: 0 <= i < |ms| && ms[i].id == id && Survives(ms, i, excess, added)
  }

  lemma {:induction false} ExcessLeft(ms: seq<Stored>, excess: int, added: nat)
    ensures Trimmed(ms, excess, added).excess
         == (if excess <= 0 then excess else if Evictable(ms, added) >= excess then 0 else excess - Evictable(ms, added))
  {
    if ms != [] { ExcessLeft(ms[..|ms| - 1], excess, added); }
  }

  lemma SparedSnoc(ms: seq<Stored>, id: string, excess: int, added: nat)
    requires ms != []
    ensures
      var n := |ms| - 1;
      Spared(ms, id, excess, added) <==> Spared(ms[..n], id, excess, added) || (ms[n].id == id && Survives(ms, n, excess, added))
  {
    var n := |ms| - 1;
    assert forall i :: 0 <= i < n ==> ms[..n][..i] == ms[..i];
    assert forall i :: 0 <= i < n ==> ms[..n][i] == ms[i] && (Survives(ms[..n], i, excess, added) <==> Survives(ms, i, excess, added));
  }

  lemma {:induction false} NoCopyIsSpared(ms: seq<Stored>, id: string)
    requires Copies(ms, id) == 0
    ensures forall i :: 0 <= i < |ms| ==> ms[i].id != id
  {
    if ms != [] { NoCopyIsSpared(ms[..|ms| - 1], id); }
  }

  /** Of at most one copy, one is left exactly when it survives. */
  lemma {:induction false} CopiesAfterTrim(ms: seq<Stored>, excess: int, added: nat, id: string)
    requires Copies(ms, id) <= 1
    ensures Copies(Trimmed(ms, excess, added).kept, id) == if Spared(ms, id, excess, added) then 1 else 0
  {
    if ms != [] {
      var n := |ms| - 1;
      CopiesAfterTrim(ms[..n], excess, added, id);
      ExcessLeft(ms[..n], excess, added);
      SparedSnoc(ms, id, excess, added);
      CopiesSnoc(Trimmed(ms[..n], excess, added).kept, ms[n], id);
      if ms[n].id == id { NoCopyIsSpared(ms[..n], id); }
    }
  }

  lemma {:induction false} NewAreKept(ms: seq<Stored>, more: seq<Stored>, excess: int, added: nat, id: string)
    requires forall m :: m in more ==> m.serial >= added
    ensures Copies(Trimmed(ms + more, excess, added).kept, id) == Copies(Trimmed(ms, excess, added).kept, id) + Copies(more, id)
  {
    if more == [] {
      assert ms + more == ms;
    } else {
      var n := |more| - 1;
      assert more == more[..n] + [more[n]];
      assert (ms + more)[..|ms + more| - 1] == ms + more[..n];
      NewAreKept(ms, more[..n], excess, added, id);
      CopiesSnoc(Trimmed(ms + more[..n], excess, added).kept, more[n], id);
    }
  }

  lemma CopiesTrimmed(ms: seq<Stored>, more: seq<Stored>, max: nat, added: nat, id: string)
    requires Copies(ms, id) <= 1 && forall m :: m in more ==> m.serial >= added
    ensures Copies(Trimmed(ms + more, |ms + more| - max, added).kept, id)
         == (if Spared(ms, id, |ms| + |more| - max, added) then 1 else 0) + Copies(more, id)
  {
    NewAreKept(ms, more, |ms| + |more| - max, added, id);
    CopiesAfterTrim(ms, |ms| + |more| - max, added, id);
  }

  /** The copies of an id after an add: the one from before if it survives, and all the new ones. */
  lemma CopiesAfterAdd(s: Store, ms: seq<Incoming>, max: nat, id: string)
    requires ms != [] && Copies(s.messages, id) <= 1
    ensures Copies(Added(s, ms, max).messages, id)
         == (if Spared(s.messages, id, |s.messages| + |ms| - max, s.next) then 1 else 0) + Copies(Filed(ms, s.next), id)
  {
    hide Trimmed, Copies, Spared;
    CopiesTrimmed(s.messages, Filed(ms, s.next), max, s.next, id);
  }

  /** What an add leaves in the ring that was not there is one of the added messages. */
  lemma AddedWasFiled(s: Store, ms: seq<Incoming>, max: nat, m: Stored)
    requires m in Added(s, ms, max).messages && m !in s.messages
    ensures exists k :: 0 <= k < |ms| && m == StoredAs(ms[k], s.next + k)
  {
    var more := Filed(ms, s.next);
    var all := s.messages + more;
    if ms != [] { TrimKeeps(all, |all| - max, s.next); }
    assert m in more;
  }

  function IdsOf(ms: seq<Incoming>): (r: seq<string>)
    ensures |r| == |ms| && forall i :: 0 <= i < |ms| ==> r[i] == ms[i].id
  {
    seq(|ms|, i requires 0 <= i < |ms| => ms[i].id)
  }

  function NotCarried(ms: seq<Stored>, c: CursorRecord): seq<Stored> {
    if ms == [] then []
    else NotCarried(ms[..|ms| - 1], c) + (if Carries(c, ms[|ms| - 1].id) then [] else [ms[|ms| - 1]])
  }

  /** A confirmation takes out of the unread sequence exactly the messages whose id the batch carried. */
  lemma {:induction false} UnreadAfterConfirm(ms: seq<Stored>, c: CursorRecord)
    ensures Unread(MarkRead(ms, c)) == NotCarried(Unread(ms), c)
  {
    if ms != [] {
      var n := |ms| - 1;
      var r, u := MarkRead(ms, c), Unread(ms[..n]);
      UnreadAfterConfirm(ms[..n], c);
      assert r[..n] == MarkRead(ms[..n], c);
      assert Unread(r) == Unread(r[..n]) + (if IsUnread(r[n]) then [r[n]] else []);
      if IsUnread(ms[n]) {
        assert Unread(ms) == u + [ms[n]];
        assert (u + [ms[n]])[..|u|] == u;
        assert NotCarried(u + [ms[n]], c) == NotCarried(u, c) + (if Carries(c, ms[n].id) then [] else [ms[n]]);
      } else {
        assert Unread(ms) == u;
        assert !IsUnread(r[n]);
      }
    }
  }
}
