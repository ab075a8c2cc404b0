/** The connector's store object, updated in place, and the part of a poll that judges a batch and fills it. */
module Ingesting {
  import opened OrderedMaps
  import opened MessageRing

  // ---------------------------------------------------------------------
  // The store object
  // ---------------------------------------------------------------------

  class MessageStore {
    var messages: seq<Stored>
    var cursors: seq<CursorRecord>
    var seenMessageIds: seq<string>
    var next: nat
    const max: nat

    function Value(): Store
      reads this
    {
      Store(messages, cursors, seenMessageIds, next)
    }

    constructor (max: nat)
      ensures Value() == Store([], [], [], 0) && this.max == max
    {
      messages, cursors, seenMessageIds, next := [], [], [], 0;
      this.max := max;
    }

    method Add(ms: seq<Incoming>)
      modifies this
      ensures Value() == Added(old(Value()), ms, max)
    {
      if |ms| == 0 { return; }
      Push(ms);
      EvictExcess(next - |ms|);
    }

    method Push(ms: seq<Incoming>)
      modifies this
      ensures messages == old(messages) + Filed(ms, old(next)) && next == old(next) + |ms|
      ensures seenMessageIds == MarkAllSeen(old(seenMessageIds), ms) && cursors == old(cursors)
    {
      ghost var s := Value();
      for i := 0 to |ms|
        invariant messages == s.messages + Filed(ms[..i], s.next)
        invariant seenMessageIds == MarkAllSeen(s.seenIds, ms[..i])
        invariant cursors == s.cursors && next == s.next + i
      {
        FiledOneMore(ms, i, s.next, s.seenIds);
        messages := messages + [StoredAs(ms[i], next)];
        next := next + 1;
        if ms[i].direction == In { seenMessageIds := MarkSeen(seenMessageIds, ms[i].id); }
      }
      assert ms[..|ms|] == ms;
    }

    method EvictExcess(added: nat)
      modifies this
      ensures Value() == old(Value()).(messages := Trimmed(old(messages), |old(messages)| - max, added).kept)
    {
      var excess := |messages| - max;
      var all := messages;
      var kept := [];
      TrimSize(all, excess, added);
      if excess > 0 {
        for i := 0 to |all|
          invariant Trim(kept, excess) == Trimmed(all[..i], |all| - max, added)
        {
          assert all[..i + 1][..i] == all[..i];
          if excess <= 0 || IsUnread(all[i]) || all[i].serial >= added {
            kept := kept + [all[i]];
          } else {
            excess := excess - 1;
          }
        }
        assert all[..|all|] == all;
        messages := kept;
      } else {
        NothingToTrim(all, excess, added);
      }
    }

    method UnreadMessages() returns (out: seq<Stored>)
      ensures out == Unread(messages)
    {
      out := [];
      for i := 0 to |messages|
        invariant out == Unread(messages[..i])
      {
        assert messages[..i + 1][..i] == messages[..i];
        if IsUnread(messages[i]) { out := out + [messages[i]]; }
      }
      assert messages[..|messages|] == messages;
    }

    method HasRoomNow() returns (room: bool)
      ensures room == HasRoom(Value(), max)
    {
      var unread := UnreadMessages();
      room := |unread| < max;
    }

    method Confirm(cursor: string)
      modifies this
      ensures Value() == Confirmed(old(Value()), cursor)
    {
      var n := IndexOfCursor(cursors, cursor);
      if n.None? { return; }
      var entry := cursors[n.value];
      cursors := cursors[n.value := entry.(confirmed := true)];
      ghost var was := messages;
      for i := 0 to |messages|
        invariant |messages| == |was| && messages[i..] == was[i..]
        invariant messages[..i] == MarkRead(was, entry)[..i]
        invariant cursors == old(cursors)[n.value := entry.(confirmed := true)]
        invariant seenMessageIds == old(seenMessageIds) && next == old(next)
      {
        assert messages[i] == was[i] by { assert messages[i..][0] == was[i..][0]; }
        if Carries(entry, messages[i].id) && messages[i].delivered.None? {
          messages := messages[i := messages[i].(delivered := Some(entry.cursor))];
        }
      }
      assert messages == MarkRead(was, entry);
    }

    method TakeUnread(limit: nat, after: Option<string>, cursor: string) returns (batch: seq<Stored>)
      modifies this
      ensures batch == Batch(old(Value()), limit, after)
      ensures Value() == Taken(old(Value()), limit, after, cursor)
    {
      if after.Some? && after.value != "" { Confirm(after.value); }
      var unread := UnreadMessages();
      batch := Prefix(unread, limit);
      cursors := cursors + [CursorRecord(cursor, batch, false)];
      ShedCursors();
    }

    method ShedCursors()
      modifies this
      ensures Value() == old(Value()).(cursors := Newest(old(cursors), CURSOR_CAP))
    {
      ghost var was := Value();
      while |cursors| > CURSOR_CAP
        invariant Value() == was.(cursors := cursors)
        invariant |cursors| <= |was.cursors| && cursors == was.cursors[|was.cursors| - |cursors|..]
        invariant |cursors| >= CURSOR_CAP || cursors == was.cursors
        decreases |cursors|
      {
        cursors := cursors[1..];
      }
    }

    method Replay(cursor: string) returns (batch: Option<seq<Stored>>)
      ensures batch == Replayed(Value(), cursor)
    {
      var n := IndexOfCursor(cursors, cursor);
      batch := if n.None? then None else Some(cursors[n.value].messages);
    }
  }

  lemma FiledOneMore(ms: seq<Incoming>, i: nat, from: nat, ids: seq<string>)
    requires i < |ms|
    ensures Filed(ms[..i + 1], from) == Filed(ms[..i], from) + [StoredAs(ms[i], from + i)]
    ensures MarkAllSeen(ids, ms[..i + 1])
         == (if ms[i].direction == In then MarkSeen(MarkAllSeen(ids, ms[..i]), ms[i].id) else MarkAllSeen(ids, ms[..i]))
  {
    assert ms[..i + 1][..i] == ms[..i];
  }

  lemma {:induction false} NothingToTrim(ms: seq<Stored>, excess: int, added: nat)
    requires excess <= 0
    ensures Trimmed(ms, excess, added) == Trim(ms, excess)
  {
    if ms != [] {
      var n := |ms| - 1;
      NothingToTrim(ms[..n], excess, added);
      assert ms == ms[..n] + [ms[n]];
    }
  }

  // ---------------------------------------------------------------------
  // Judging a batch
  // ---------------------------------------------------------------------

  /** A relay message as far as judging it goes; `id` is absent when the entry is malformed. */
  datatype Raw = Raw(id: Option<string>, sender: string, messageType: string, fromOperator: bool, signed: bool, text: string)

  datatype Status = Verified | RelayAttested | Unsigned | SignatureFailed | Unverifiable

  datatype Policy = Policy(selfId: string, operatorTrusted: bool, requireSigned: bool)

  datatype Disposition = Malformed | Echo | Heartbeat | AlreadySeen | Kept | Refused

  /** `verdicts[id]` is whether the signature verified; none when verification could not run. */
  type Judged = map<string, Option<bool>>

  function Classify(raw: Raw, verdict: Option<bool>, operatorTrusted: bool): Status {
    if !raw.signed then if raw.fromOperator && operatorTrusted then RelayAttested else Unsigned
    else if verdict.None? then Unverifiable
    else if verdict.value then Verified else SignatureFailed
  }

  predicate Admits(p: Policy, s: Status) {
    if p.requireSigned then s == Verified || s == RelayAttested else s != SignatureFailed
  }

  function StatusOf(raw: Raw, p: Policy, verdicts: Judged): Status
    requires raw.id.Some?
  {
    Classify(raw, if raw.id.value in verdicts then verdicts[raw.id.value] else None, p.operatorTrusted)
  }

  function Judge(raw: Raw, p: Policy, verdicts: Judged, seen: seq<string>): Disposition {
    if raw.id.None? then Malformed
    else if raw.sender == p.selfId then Echo
    else if raw.messageType == "heartbeat" then Heartbeat
    else if raw.id.value in seen then AlreadySeen
    else if Admits(p, StatusOf(raw, p, verdicts)) then Kept else Refused
  }

  function AsIncoming(raw: Raw): Incoming
    requires raw.id.Some?
  {
    Incoming(raw.id.value, In, raw.text)
  }

  function Accepted(raws: seq<Raw>, p: Policy, verdicts: Judged, seen: seq<string>): seq<Incoming> {
    if raws == [] then []
    else
      var last := raws[|raws| - 1];
      Accepted(raws[..|raws| - 1], p, verdicts, seen) + (if Judge(last, p, verdicts, seen) == Kept then [AsIncoming(last)] else [])
  }

  function Rejected(raws: seq<Raw>, p: Policy, verdicts: Judged, seen: seq<string>): seq<Raw> {
    if raws == [] then []
    else
      var last := raws[|raws| - 1];
      Rejected(raws[..|raws| - 1], p, verdicts, seen) + (if Judge(last, p, verdicts, seen) == Refused then [last] else [])
  }

  /** Sync and verification aside, one poll's ingest: dead-letter records out, accepted messages in the store. */
  method Ingest(store: MessageStore, raws: seq<Raw>, p: Policy, verdicts: Judged) returns (deadLetters: seq<Raw>)
    modifies store
    ensures deadLetters == Rejected(raws, p, verdicts, old(store.seenMessageIds))
    ensures store.Value() == Added(old(store.Value()), Accepted(raws, p, verdicts, old(store.seenMessageIds)), store.max)
  {
    var accepted: seq<Incoming> := [];
    deadLetters := [];
    for i := 0 to |raws|
      invariant accepted == Accepted(raws[..i], p, verdicts, store.seenMessageIds)
      invariant deadLetters == Rejected(raws[..i], p, verdicts, store.seenMessageIds)
      invariant store.Value() == old(store.Value())
    {
      var raw := raws[i];
      assert raws[..i + 1][..i] == raws[..i];
      if raw.id.None? { continue; }
      if raw.sender == p.selfId { continue; }
      if raw.messageType == "heartbeat" { continue; }
      if raw.id.value in store.seenMessageIds { continue; }
      var verdict := if raw.id.value in verdicts then verdicts[raw.id.value] else None;
      var status := Classify(raw, verdict, p.operatorTrusted);
      if Admits(p, status) {
        accepted := accepted + [AsIncoming(raw)];
      } else {
        deadLetters := deadLetters + [raw];
      }
    }
    assert raws[..|raws|] == raws;
    store.Add(accepted);
  }

  /** What the policy lets through: never a failed signature, and in require mode only a verified message or one
      the relay attests as the operator's. */
  predicate Trusted(raw: Raw, p: Policy, verdicts: Judged)
    requires raw.id.Some?
  {
    var id := raw.id.value;
    if !raw.signed then !p.requireSigned || (raw.fromOperator && p.operatorTrusted)
    else if p.requireSigned then id in verdicts && verdicts[id] == Some(true)
    else id !in verdicts || verdicts[id] != Some(false)
  }

  /** A well-formed message, neither an echo nor a heartbeat, under an id not seen before. */
  predicate Fresh(raw: Raw, p: Policy, seen: seq<string>) {
    raw.id.Some? && raw.sender != p.selfId && raw.messageType != "heartbeat" && raw.id.value !in seen
  }

  /** One that the policy admits. */
  predicate Storable(raw: Raw, p: Policy, verdicts: Judged, seen: seq<string>) {
    Fresh(raw, p, seen) && Trusted(raw, p, verdicts)
  }

  // ---------------------------------------------------------------------
  // Accounting
  // ---------------------------------------------------------------------

  function CountOf(raws: seq<Raw>, d: Disposition, p: Policy, verdicts: Judged, seen: seq<string>): nat {
    if raws == [] then 0
    else CountOf(raws[..|raws| - 1], d, p, verdicts, seen) + (if Judge(raws[|raws| - 1], p, verdicts, seen) == d then 1 else 0)
  }

  lemma {:induction false} AcceptedLength(raws: seq<Raw>, p: Policy, verdicts: Judged, seen: seq<string>)
    ensures |Accepted(raws, p, verdicts, seen)| == CountOf(raws, Kept, p, verdicts, seen)
    ensures |Rejected(raws, p, verdicts, seen)| == CountOf(raws, Refused, p, verdicts, seen)
  {
    if raws != [] { AcceptedLength(raws[..|raws| - 1], p, verdicts, seen); }
  }

  /** What each disposition means, the first that applies being the one given. */
  ghost predicate Deserves(raw: Raw, d: Disposition, p: Policy, verdicts: Judged, seen: seq<string>) {
    match d
    case Malformed => raw.id.None?
    case Echo => raw.id.Some? && raw.sender == p.selfId
    case Heartbeat => raw.id.Some? && raw.sender != p.selfId && raw.messageType == "heartbeat"
    case AlreadySeen => raw.id.Some? && raw.sender != p.selfId && raw.messageType != "heartbeat" && raw.id.value in seen
    case Kept => Fresh(raw, p, seen) && Trusted(raw, p, verdicts)
    case Refused => Fresh(raw, p, seen) && !Trusted(raw, p, verdicts)
  }

  lemma JudgedAsDeserved(raw: Raw, p: Policy, verdicts: Judged, seen: seq<string>)
    ensures Deserves(raw, Judge(raw, p, verdicts, seen), p, verdicts, seen)
  {
  }

  /** The kept message at position `i` is stored in its place, after those kept before it; a refused one is
      dead-lettered in its place; anything else was malformed, an echo, a heartbeat or already seen. Only a fresh message
      that the policy does not admit is refused. */
  lemma {:induction false} EveryMessageAccounted(raws: seq<Raw>, i: nat, p: Policy, verdicts: Judged, seen: seq<string>)
    requires i < |raws|
    ensures Deserves(raws[i], Judge(raws[i], p, verdicts, seen), p, verdicts, seen)
    ensures
      var before := raws[..i];
      match Judge(raws[i], p, verdicts, seen)
      case Kept =>
        var n := CountOf(before, Kept, p, verdicts, seen);
        raws[i].id.Some? && n < |Accepted(raws, p, verdicts, seen)| && Accepted(raws, p, verdicts, seen)[n] == AsIncoming(raws[i])
      case Refused =>
        var n := CountOf(before, Refused, p, verdicts, seen);
        n < |Rejected(raws, p, verdicts, seen)| && Rejected(raws, p, verdicts, seen)[n] == raws[i]
      case _ => true
  {
    hide Trusted, Fresh, Admits, StatusOf, Deserves;
    var n := |raws| - 1;
    AcceptedLength(raws[..n], p, verdicts, seen);
    JudgedAsDeserved(raws[i], p, verdicts, seen);
    if i < n {
      EveryMessageAccounted(raws[..n], i, p, verdicts, seen);
      assert raws[..n][..i] == raws[..i];
    }
  }

  /** A message is dead-lettered if and only if the batch has it, it is well-formed, neither an echo nor a heartbeat, its id
      is new, and the policy does not admit it: a redelivery never is. */
  lemma {:induction false} DeadLetteredIff(raws: seq<Raw>, p: Policy, verdicts: Judged, seen: seq<string>, raw: Raw)
    ensures raw in Rejected(raws, p, verdicts, seen) <==> raw in raws && Fresh(raw, p, seen) && !Trusted(raw, p, verdicts)
  {
    if raws != [] {
      var n := |raws| - 1;
      assert raws == raws[..n] + [raws[n]];
      DeadLetteredIff(raws[..n], p, verdicts, seen, raw);
      JudgedAsDeserved(raws[n], p, verdicts, seen);
    }
  }

  /** An ingest appends exactly the kept messages, unread and in batch order, to what the client has still to
      read, whatever the ring evicts to make room. */
  lemma IngestAppendsKept(s: Store, raws: seq<Raw>, p: Policy, verdicts: Judged, max: nat)
    ensures
      var accepted := Accepted(raws, p, verdicts, s.seenIds);
      Unread(Added(s, accepted, max).messages) == Unread(s.messages) + Filed(accepted, s.next)
  {
    var accepted := Accepted(raws, p, verdicts, s.seenIds);
    UnreadAfterAdd(s, accepted, max);
    AcceptedAreInbound(raws, p, verdicts, s.seenIds);
    InboundIsUnread(accepted, s.next);
  }

  predicate AllInbound(ms: seq<Incoming>) {
    forall i :: 0 <= i < |ms| ==> ms[i].direction == In
  }

  lemma InboundIsUnread(ms: seq<Incoming>, next: nat)
    requires AllInbound(ms)
    ensures Unread(Filed(ms, next)) == Filed(ms, next)
  {
    AllUnread(Filed(ms, next));
  }

  lemma {:induction false} AcceptedAreInbound(raws: seq<Raw>, p: Policy, verdicts: Judged, seen: seq<string>)
    ensures AllInbound(Accepted(raws, p, verdicts, seen))
  {
    if raws != [] {
      var n := |raws| - 1;
      AcceptedAreInbound(raws[..n], p, verdicts, seen);
      var init, all := Accepted(raws[..n], p, verdicts, seen), Accepted(raws, p, verdicts, seen);
      assert forall i :: 0 <= i < |init| ==> all[i] == init[i];
    }
  }

  lemma {:induction false} AllUnread(ms: seq<Stored>)
    requires forall i :: 0 <= i < |ms| ==> IsUnread(ms[i])
    ensures Unread(ms) == ms
  {
    if ms != [] {
      var n := |ms| - 1;
      var init := ms[..n];
      AllUnread(init);
      assert ms == init + [ms[n]];
    }
  }

  // ---------------------------------------------------------------------
  // What is stored, and how often
  // ---------------------------------------------------------------------

  lemma KeptIffStorable(raw: Raw, p: Policy, verdicts: Judged, seen: seq<string>)
    ensures Judge(raw, p, verdicts, seen) == Kept <==> Storable(raw, p, verdicts, seen)
  {
  }

  ghost predicate StorableAs(raws: seq<Raw>, i: int, id: string, p: Policy, verdicts: Judged, seen: seq<string>) {
    0 <= i < |raws| && raws[i].id == Some(id) && Storable(raws[i], p, verdicts, seen)
  }

  ghost predicate NoneStorable(raws: seq<Raw>, id: string, p: Policy, verdicts: Judged, seen: seq<string>) {
    forall i :: !StorableAs(raws, i, id, p, verdicts, seen)
  }

  ghost predicate OneStorable(raws: seq<Raw>, id: string, p: Policy, verdicts: Judged, seen: seq<string>) {
    forall i, j :: StorableAs(raws, i, id, p, verdicts, seen) && StorableAs(raws, j, id, p, verdicts, seen) ==> i == j
  }

  /** How many messages of the batch will be stored. */
  function StorableCount(raws: seq<Raw>, p: Policy, verdicts: Judged, seen: seq<string>): nat {
    if raws == [] then 0
    else StorableCount(raws[..|raws| - 1], p, verdicts, seen) + (if Storable(raws[|raws| - 1], p, verdicts, seen) then 1 else 0)
  }

  lemma {:induction false} AcceptedCount(raws: seq<Raw>, p: Policy, verdicts: Judged, seen: seq<string>)
    ensures |Accepted(raws, p, verdicts, seen)| == StorableCount(raws, p, verdicts, seen)
  {
    if raws != [] {
      AcceptedCount(raws[..|raws| - 1], p, verdicts, seen);
      KeptIffStorable(raws[|raws| - 1], p, verdicts, seen);
    }
  }

  lemma {:induction false} AcceptedFrom(raws: seq<Raw>, p: Policy, verdicts: Judged, seen: seq<string>, m: Incoming)
    requires m in Accepted(raws, p, verdicts, seen)
    ensures exists i :: 0 <= i < |raws| && Storable(raws[i], p, verdicts, seen) && AsIncoming(raws[i]) == m
  {
    var n := |raws| - 1;
    KeptIffStorable(raws[n], p, verdicts, seen);
    if m in Accepted(raws[..n], p, verdicts, seen) {
      AcceptedFrom(raws[..n], p, verdicts, seen, m);
      var i :| 0 <= i < n && Storable(raws[..n][i], p, verdicts, seen) && AsIncoming(raws[..n][i]) == m;
      assert raws[i] == raws[..n][i];
    } else {
      assert AsIncoming(raws[n]) == m;
    }
  }

  /** Whatever an ingest adds to the ring is a message of the batch that the policy admits, unread and with its
      own id and text: never a failed signature, an echo, a heartbeat or an id already seen. */
  lemma IngestAddsOnlyAdmitted(s: Store, raws: seq<Raw>, p: Policy, verdicts: Judged, max: nat, m: Stored)
    requires m in Added(s, Accepted(raws, p, verdicts, s.seenIds), max).messages && m !in s.messages
    ensures IsUnread(m)
    ensures exists i :: 0 <= i < |raws| && Storable(raws[i], p, verdicts, s.seenIds) && raws[i].id == Some(m.id) && raws[i].text == m.text
  {
    var accepted := Accepted(raws, p, verdicts, s.seenIds);
    AddedWasFiled(s, accepted, max, m);
    var k :| 0 <= k < |accepted| && m == StoredAs(accepted[k], s.next + k);
    AcceptedFrom(raws, p, verdicts, s.seenIds, accepted[k]);
  }

  lemma {:induction false} NoCopies(raws: seq<Raw>, id: string, p: Policy, verdicts: Judged, seen: seq<string>, from: nat)
    ensures Copies(Filed(Accepted(raws, p, verdicts, seen), from), id) == 0 <==> NoneStorable(raws, id, p, verdicts, seen)
  {
    if raws != [] {
      NoCopies(raws[..|raws| - 1], id, p, verdicts, seen, from);
      CopiesOfOneMore(raws, id, p, verdicts, seen, from);
      OneMoreStorable(raws, id, p, verdicts, seen);
    }
  }

  lemma StorableInPrefix(raws: seq<Raw>, n: nat, i: int, id: string, p: Policy, verdicts: Judged, seen: seq<string>)
    requires n <= |raws|
    ensures StorableAs(raws[..n], i, id, p, verdicts, seen) <==> i < n && StorableAs(raws, i, id, p, verdicts, seen)
  {
  }

  lemma OneMoreStorable(raws: seq<Raw>, id: string, p: Policy, verdicts: Judged, seen: seq<string>)
    requires raws != []
    ensures
      var n := |raws| - 1;
      var last := StorableAs(raws, n, id, p, verdicts, seen);
      && (NoneStorable(raws, id, p, verdicts, seen) <==> !last && NoneStorable(raws[..n], id, p, verdicts, seen))
      && (OneStorable(raws, id, p, verdicts, seen)
          <==> OneStorable(raws[..n], id, p, verdicts, seen) && (last ==> NoneStorable(raws[..n], id, p, verdicts, seen)))
  {
    var n := |raws| - 1;
    forall i ensures StorableAs(raws[..n], i, id, p, verdicts, seen) <==> i < n && StorableAs(raws, i, id, p, verdicts, seen) {
      StorableInPrefix(raws, n, i, id, p, verdicts, seen);
    }
    assert forall i :: StorableAs(raws, i, id, p, verdicts, seen) ==> i < n || i == n;
  }

  lemma CopiesOfOneMore(raws: seq<Raw>, id: string, p: Policy, verdicts: Judged, seen: seq<string>, from: nat)
    requires raws != []
    ensures
      var n := |raws| - 1;
      Copies(Filed(Accepted(raws, p, verdicts, seen), from), id)
        == Copies(Filed(Accepted(raws[..n], p, verdicts, seen), from), id) + (if StorableAs(raws, n, id, p, verdicts, seen) then 1 else 0)
  {
    var n := |raws| - 1;
    var init := Accepted(raws[..n], p, verdicts, seen);
    KeptIffStorable(raws[n], p, verdicts, seen);
    if Storable(raws[n], p, verdicts, seen) {
      FiledSnoc(init, AsIncoming(raws[n]), from, id);
    } else {
      assert init + [] == init;
    }
  }

  lemma FiledSnoc(ms: seq<Incoming>, m: Incoming, from: nat, id: string)
    ensures Copies(Filed(ms + [m], from), id) == Copies(Filed(ms, from), id) + (if m.id == id then 1 else 0)
  {
    var all := Filed(ms + [m], from);
    assert all[..|ms|] == Filed(ms, from);
  }

  lemma {:induction false} AcceptedOnce(raws: seq<Raw>, id: string, p: Policy, verdicts: Judged, seen: seq<string>, from: nat)
    ensures Copies(Filed(Accepted(raws, p, verdicts, seen), from), id) <= 1 <==> OneStorable(raws, id, p, verdicts, seen)
  {
    if raws != [] {
      var init := raws[..|raws| - 1];
      AcceptedOnce(init, id, p, verdicts, seen, from);
      NoCopies(init, id, p, verdicts, seen, from);
      CopiesOfOneMore(raws, id, p, verdicts, seen, from);
      OneMoreStorable(raws, id, p, verdicts, seen);
    }
  }

  /** The seen check guards against redelivery, within its memory, and not against a batch repeating an id. After
      an ingest into a store that held `id` at most once, it is held at most once if and only if at most one
      storable message of the batch carries it and, if one does, no copy from before survives the eviction: one
      whose id has left the seen FIFO may still be in the ring. */
  lemma StoredOnceIff(s: Store, raws: seq<Raw>, id: string, p: Policy, verdicts: Judged, max: nat)
    requires Valid(s) && Copies(s.messages, id) <= 1
    ensures
      var excess := |s.messages| + StorableCount(raws, p, verdicts, s.seenIds) - max;
      Copies(Added(s, Accepted(raws, p, verdicts, s.seenIds), max).messages, id) <= 1
      <==>
      && OneStorable(raws, id, p, verdicts, s.seenIds)
      && (Spared(s.messages, id, excess, s.next) ==> NoneStorable(raws, id, p, verdicts, s.seenIds))
  {
    var accepted := Accepted(raws, p, verdicts, s.seenIds);
    AcceptedCount(raws, p, verdicts, s.seenIds);
    NoCopies(raws, id, p, verdicts, s.seenIds, s.next);
    AcceptedOnce(raws, id, p, verdicts, s.seenIds, s.next);
    if accepted == [] {
      assert Filed(accepted, s.next) == [];
    } else {
      CopiesAfterAdd(s, accepted, max, id);
    }
  }

  lemma SingletonAccepted(raw: Raw, p: Policy, verdicts: Judged, seen: seq<string>)
    requires Storable(raw, p, verdicts, seen)
    ensures Accepted([raw], p, verdicts, seen) == [AsIncoming(raw)]
    ensures Accepted([raw, raw], p, verdicts, seen) == [AsIncoming(raw), AsIncoming(raw)]
  {
    KeptIffStorable(raw, p, verdicts, seen);
    assert [raw, raw][..1] == [raw] && [raw][..0] == [];
    assert Accepted([raw], p, verdicts, seen) == [AsIncoming(raw)];
  }

  /** Any storable message, repeated in one batch, is stored twice, whatever the ring holds and however full. */
  lemma RepeatedIdIsStoredTwice(s: Store, raw: Raw, p: Policy, verdicts: Judged, max: nat)
    requires Storable(raw, p, verdicts, s.seenIds) && Copies(s.messages, raw.id.value) == 0
    ensures Copies(Added(s, Accepted([raw, raw], p, verdicts, s.seenIds), max).messages, raw.id.value) == 2
  {
    var m, id := AsIncoming(raw), raw.id.value;
    SingletonAccepted(raw, p, verdicts, s.seenIds);
    CopiesAfterAdd(s, [m, m], max, id);
    NoCopyIsSpared(s.messages, id);
    FiledSnoc([m], m, s.next, id);
    FiledSnoc([], m, s.next, id);
    assert [] + [m] == [m] && [m] + [m] == [m, m];
  }
}
