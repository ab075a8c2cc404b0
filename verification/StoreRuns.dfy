/** The connector's message store over whole runs: at-least-once reads, exact replay and backpressure. */
module StoreRuns {
  import opened OrderedMaps
  import opened MessageRing

  /** A read that was answered. */
  datatype Handed = Handed(cursor: string, messages: seq<Stored>)

  /** The store and every batch it ever handed out. */
  datatype Traced = Traced(store: Store, handed: seq<Handed>)

  datatype Event =
    | Add(messages: seq<Incoming>)
    | Take(limit: nat, after: Option<string>, cursor: string)

  const EMPTY := Traced(Store([], [], [], 0), [])

  function Next(s: Traced, e: Event, max: nat): Traced {
    match e
    case Add(ms) => s.(store := Added(s.store, ms, max))
    case Take(limit, after, cursor) =>
      Traced(Taken(s.store, limit, after, cursor), s.handed + [Handed(cursor, Batch(s.store, limit, after))])
  }

  ghost predicate IsRun(ss: seq<Traced>, es: seq<Event>, max: nat) {
    && |ss| == |es| + 1 && ss[0] == EMPTY
    && forall i :: 0 <= i < |es| ==> ss[i + 1] == Next(ss[i], es[i], max)
  }

  // ---------------------------------------------------------------------
  // Cursors
  // ---------------------------------------------------------------------

  function HandedAs(c: CursorRecord): Handed {
    Handed(c.cursor, c.messages)
  }

  function HandedBy(cs: seq<CursorRecord>): (r: seq<Handed>)
    ensures |r| == |cs| && forall i :: 0 <= i < |cs| ==> r[i] == HandedAs(cs[i])
  {
    seq(|cs|, i requires 0 <= i < |cs| => HandedAs(cs[i]))
  }

  /** The retained cursors are the newest handed-out batches, exactly as handed out. */
  ghost predicate Faithful(s: Traced) {
    Valid(s.store) && HandedBy(s.store.cursors) == Newest(s.handed, CURSOR_CAP)
  }

  lemma NewestAppend(cs: seq<CursorRecord>, c: CursorRecord, hs: seq<Handed>)
    requires HandedBy(cs) == Newest(hs, CURSOR_CAP)
    ensures HandedBy(Newest(cs + [c], CURSOR_CAP)) == Newest(hs + [HandedAs(c)], CURSOR_CAP)
  {
    var a, b := HandedBy(Newest(cs + [c], CURSOR_CAP)), Newest(hs + [HandedAs(c)], CURSOR_CAP);
    assert |a| == |b|;
    assert forall i :: 0 <= i < |a| ==> a[i] == b[i];
  }

  lemma NextFaithful(s: Traced, e: Event, max: nat)
    requires Faithful(s)
    ensures Faithful(Next(s, e, max))
  {
    match e
    case Add(ms) => AddedValid(s.store, ms, max);
    case Take(limit, after, cursor) =>
      TakenValid(s.store, limit, after, cursor);
      assert HandedBy(BeforeTake(s.store, after).cursors) == HandedBy(s.store.cursors);
      NewestAppend(BeforeTake(s.store, after).cursors, CursorRecord(cursor, Batch(s.store, limit, after), false), s.handed);
  }

  lemma {:induction false} RunFaithful(ss: seq<Traced>, es: seq<Event>, max: nat, i: nat)
    requires IsRun(ss, es, max) && i <= |es|
    ensures Faithful(ss[i])
  {
    if i > 0 {
      RunFaithful(ss, es, max, i - 1);
      NextFaithful(ss[i - 1], es[i - 1], max);
      assert ss[i - 1 + 1] == Next(ss[i - 1], es[i - 1], max);
    }
  }

  ghost predicate Distinct(hs: seq<Handed>) {
    forall a, b :: 0 <= a < b < |hs| ==> hs[a].cursor != hs[b].cursor
  }

  lemma FoundAt(cs: seq<CursorRecord>, n: nat)
    requires n < |cs| && forall k :: 0 <= k < |cs| && k != n ==> cs[k].cursor != cs[n].cursor
    ensures IndexOfCursor(cs, cs[n].cursor) == Some(n)
  {
    assert cs[n] in cs;
  }

  lemma Retained(s: Traced, n: nat)
    requires Faithful(s) && n < |s.handed| <= n + CURSOR_CAP
    ensures
      var k := n - (|s.handed| - |s.store.cursors|);
      0 <= k < |s.store.cursors| && HandedAs(s.store.cursors[k]) == s.handed[n]
  {
    var gap := |s.handed| - |s.store.cursors|;
    assert HandedBy(s.store.cursors) == s.handed[gap..];
    assert HandedBy(s.store.cursors)[n - gap] == s.handed[n];
  }

  lemma RetainedReplays(s: Traced, n: nat)
    requires Faithful(s) && Distinct(s.handed) && n < |s.handed| <= n + CURSOR_CAP
    ensures Replayed(s.store, s.handed[n].cursor) == Some(s.handed[n].messages)
  {
    var cs := s.store.cursors;
    var gap := |s.handed| - |cs|;
    Retained(s, n);
    forall k | 0 <= k < |cs| && k != n - gap ensures cs[k].cursor != cs[n - gap].cursor {
      Retained(s, gap + k);
      assert s.handed[gap + k].cursor != s.handed[n].cursor;
    }
    FoundAt(cs, n - gap);
  }

  lemma AgedOutReplaysNothing(s: Traced, n: nat)
    requires Faithful(s) && Distinct(s.handed) && n + CURSOR_CAP < |s.handed|
    ensures Replayed(s.store, s.handed[n].cursor) == None
  {
    var cs := s.store.cursors;
    forall c | c in cs ensures c.cursor != s.handed[n].cursor {
      var k :| 0 <= k < |cs| && cs[k] == c;
      Retained(s, |s.handed| - |cs| + k);
    }
  }

  /** A cursor among the last CURSOR_CAP handed out replays exactly the batch it was handed out with, when
      cursor ids do not repeat; one that has aged out replays nothing. */
  lemma ReplayIsExact(ss: seq<Traced>, es: seq<Event>, max: nat, i: nat, n: nat)
    requires IsRun(ss, es, max) && i <= |es| && n < |ss[i].handed| && Distinct(ss[i].handed)
    ensures Replayed(ss[i].store, ss[i].handed[n].cursor)
         == if n + CURSOR_CAP >= |ss[i].handed| then Some(ss[i].handed[n].messages) else None
  {
    RunFaithful(ss, es, max, i);
    if n + CURSOR_CAP >= |ss[i].handed| { RetainedReplays(ss[i], n); } else { AgedOutReplaysNothing(ss[i], n); }
  }

  // ---------------------------------------------------------------------
  // At least once
  // ---------------------------------------------------------------------

  /** This step confirms a batch that was handed out with a message of this id in it. */
  ghost predicate ConfirmsId(s: Traced, e: Event, id: string) {
    && e.Take? && e.after.Some?
    && exists n :: 0 <= n < |s.handed| && s.handed[n].cursor == e.after.value && exists m :: m in s.handed[n].messages && m.id == id
  }

  lemma RetainedWasHanded(s: Traced, n: nat)
    requires Faithful(s) && n < |s.store.cursors|
    ensures exists k :: 0 <= k < |s.handed| && s.handed[k] == HandedAs(s.store.cursors[n])
  {
    var k := |s.handed| - |s.store.cursors| + n;
    assert HandedBy(s.store.cursors)[n] == s.handed[k];
  }

  lemma StaysUnread(s: Traced, e: Event, max: nat, m: Stored)
    requires Faithful(s) && m in s.store.messages && IsUnread(m)
    ensures m in Next(s, e, max).store.messages || ConfirmsId(s, e, m.id)
  {
    match e
    case Add(ms) =>
      UnreadAfterAdd(s.store, ms, max);
      UnreadHas(s.store.messages, m);
      UnreadHas(Next(s, e, max).store.messages, m);
    case Take(limit, after, cursor) =>
      var i :| 0 <= i < |s.store.messages| && s.store.messages[i] == m;
      var r := BeforeTake(s.store, after).messages;
      assert r[i] in r;
      if r[i] != m {
        var n := IndexOfCursor(s.store.cursors, after.value).value;
        RetainedWasHanded(s, n);
      }
  }

  /** An unread message stays in the ring, unread, until a batch that was handed out with its id is confirmed. */
  lemma {:induction false} UnreadIsNeverLost(ss: seq<Traced>, es: seq<Event>, max: nat, i: nat, j: nat, m: Stored)
    requires IsRun(ss, es, max) && i <= j <= |es| && m in ss[i].store.messages && IsUnread(m)
    ensures m in ss[j].store.messages || exists t :: i <= t < j && ConfirmsId(ss[t], es[t], m.id)
  {
    hide Next, Faithful, ConfirmsId;
    if i < j {
      UnreadIsNeverLost(ss, es, max, i, j - 1, m);
      if m in ss[j - 1].store.messages {
        RunFaithful(ss, es, max, j - 1);
        StaysUnread(ss[j - 1], es[j - 1], max, m);
        assert ss[j - 1 + 1] == Next(ss[j - 1], es[j - 1], max);
      }
    }
  }

  // ---------------------------------------------------------------------
  // At least once, per stored message
  // ---------------------------------------------------------------------

  /** Everything ever added, in order: a stored message's serial is its place here. */
  function Log(es: seq<Event>): seq<Incoming> {
    if es == [] then []
    else Log(es[..|es| - 1]) + (if es[|es| - 1].Add? then es[|es| - 1].messages else [])
  }

  ghost predicate Logged(log: seq<Incoming>, m: Stored) {
    m.serial < |log| && m.id == log[m.serial].id && m.direction == log[m.serial].direction
  }

  ghost predicate AllLogged(log: seq<Incoming>, ms: seq<Stored>) {
    forall m :: m in ms ==> Logged(log, m)
  }

  ghost predicate LoggedIn(log: seq<Incoming>, ms: seq<Stored>) {
    forall m :: m in ms ==> Logged(log, m) && m.direction == In
  }

  ghost predicate Traceable(log: seq<Incoming>, s: Traced) {
    && s.store.next == |log| && AllLogged(log, s.store.messages)
    && forall n :: 0 <= n < |s.handed| ==> LoggedIn(log, s.handed[n].messages)
  }

  lemma LogGrows(log: seq<Incoming>, more: seq<Incoming>, ms: seq<Stored>)
    ensures AllLogged(log, ms) ==> AllLogged(log + more, ms)
    ensures LoggedIn(log, ms) ==> LoggedIn(log + more, ms)
  {
  }

  lemma AddTraceable(log: seq<Incoming>, s: Traced, ms: seq<Incoming>, max: nat)
    requires Traceable(log, s)
    ensures Traceable(log + ms, Next(s, Add(ms), max))
  {
    var r := Added(s.store, ms, max);
    forall m | m in r.messages ensures Logged(log + ms, m) {
      if m !in s.store.messages {
        AddedWasFiled(s.store, ms, max, m);
        var k :| 0 <= k < |ms| && m == StoredAs(ms[k], s.store.next + k);
      }
    }
    forall n | 0 <= n < |s.handed| ensures LoggedIn(log + ms, s.handed[n].messages) { LogGrows(log, ms, s.handed[n].messages); }
  }

  lemma MarkedLogged(log: seq<Incoming>, s: Store, after: Option<string>)
    requires AllLogged(log, s.messages)
    ensures AllLogged(log, BeforeTake(s, after).messages)
  {
    var r := BeforeTake(s, after).messages;
    forall m | m in r ensures Logged(log, m) {
      var i :| 0 <= i < |r| && r[i] == m;
      assert s.messages[i] in s.messages;
    }
  }

  lemma TakeTraceable(log: seq<Incoming>, s: Traced, limit: nat, after: Option<string>, cursor: string, max: nat)
    requires Traceable(log, s)
    ensures Traceable(log, Next(s, Take(limit, after, cursor), max))
  {
    MarkedLogged(log, s.store, after);
    var b := Batch(s.store, limit, after);
    forall m | m in b ensures Logged(log, m) && m.direction == In { UnreadHas(BeforeTake(s.store, after).messages, m); }
  }

  lemma {:induction false} RunTraceable(ss: seq<Traced>, es: seq<Event>, max: nat, i: nat)
    requires IsRun(ss, es, max) && i <= |es|
    ensures Traceable(Log(es[..i]), ss[i])
  {
    if i > 0 {
      RunTraceable(ss, es, max, i - 1);
      assert es[..i][..i - 1] == es[..i - 1];
      assert ss[i - 1 + 1] == Next(ss[i - 1], es[i - 1], max);
      var log := Log(es[..i - 1]);
      match es[i - 1] {
        case Add(ms) => AddTraceable(log, ss[i - 1], ms, max);
        case Take(limit, after, cursor) =>
          TakeTraceable(log, ss[i - 1], limit, after, cursor, max);
          assert Log(es[..i]) == log + [];
      }
    }
  }

  /** No two inbound messages ever added share an id. */
  ghost predicate DistinctIds(log: seq<Incoming>) {
    forall a, b :: 0 <= a < b < |log| && log[a].direction == In && log[b].direction == In ==> log[a].id != log[b].id
  }

  lemma {:induction false} LogPrefix(es: seq<Event>, i: nat, j: nat)
    requires i <= j <= |es|
    ensures Log(es[..i]) <= Log(es[..j])
  {
    if i < j {
      LogPrefix(es, i, j - 1);
      assert es[..j][..j - 1] == es[..j - 1];
    }
  }

  /** This step confirms a batch that was handed out with this very message in it. */
  ghost predicate ConfirmsSerial(s: Traced, e: Event, serial: nat) {
    && e.Take? && e.after.Some?
    && exists n :: 0 <= n < |s.handed| && s.handed[n].cursor == e.after.value && exists m :: m in s.handed[n].messages && m.serial == serial
  }

  lemma IdIsSerial(log: seq<Incoming>, s: Traced, e: Event, m: Stored)
    requires Traceable(log, s) && DistinctIds(log) && Logged(log, m) && m.direction == In && ConfirmsId(s, e, m.id)
    ensures ConfirmsSerial(s, e, m.serial)
  {
    var n :| 0 <= n < |s.handed| && s.handed[n].cursor == e.after.value && exists x :: x in s.handed[n].messages && x.id == m.id;
    var x :| x in s.handed[n].messages && x.id == m.id;
    assert LoggedIn(log, s.handed[n].messages) && Logged(log, x);
    assert x.serial == m.serial;
  }

  /** While no id is stored twice: a message stays in the ring, unread, until a batch that was handed out with
      that very message in it is confirmed. The client has always seen what it no longer gets. */
  lemma UnreadUntilSeen(ss: seq<Traced>, es: seq<Event>, max: nat, i: nat, j: nat, m: Stored)
    requires IsRun(ss, es, max) && i <= j <= |es| && m in ss[i].store.messages && IsUnread(m)
    requires DistinctIds(Log(es[..j]))
    ensures m in ss[j].store.messages || exists t :: i <= t < j && ConfirmsSerial(ss[t], es[t], m.serial)
  {
    UnreadIsNeverLost(ss, es, max, i, j, m);
    if m !in ss[j].store.messages {
      var t :| i <= t < j && ConfirmsId(ss[t], es[t], m.id);
      RunTraceable(ss, es, max, i);
      RunTraceable(ss, es, max, t);
      LogPrefix(es, i, t);
      LogPrefix(es, t, j);
      IdIsSerial(Log(es[..t]), ss[t], es[t], m);
    }
  }

  /** The retained batch this step confirms. */
  function Confirms(s: Store, e: Event): Option<CursorRecord> {
    if e.Add? || e.after.None? || e.after.value == "" || IndexOfCursor(s.cursors, e.after.value).None? then None
    else Some(s.cursors[IndexOfCursor(s.cursors, e.after.value).value])
  }

  /** The batch has this very message. */
  predicate Has(c: CursorRecord, serial: nat) {
    exists m :: m in c.messages && m.serial == serial
  }

  /** One step: an unread message is settled by the confirmation of a batch it is not in if and only if that batch
      carries its id on other messages only. */
  lemma SettledUnseenIff(ss: seq<Traced>, es: seq<Event>, max: nat, t: nat, m: Stored)
    requires IsRun(ss, es, max) && t < |es| && m in ss[t].store.messages && IsUnread(m)
    ensures
      var c := Confirms(ss[t].store, es[t]);
      Done(ss[t + 1].store, m.serial) && (c.None? || !Has(c.value, m.serial))
      <==> c.Some? && Carries(c.value, m.id) && !Has(c.value, m.serial)
  {
    RunFaithful(ss, es, max, t);
    RunFaithful(ss, es, max, t + 1);
    var s, e, c := ss[t].store, es[t], Confirms(ss[t].store, es[t]);
    assert ss[t + 1] == Next(ss[t], e, max);
    AscendingBelow(s.messages, s.next, m);
    if c.Some? && Carries(c.value, m.id) {
      ConfirmSettles(s, e.limit, e.after.value, e.cursor, m);
    } else {
      NotSettled(ss[t], e, max, m);
    }
  }

  lemma NotSettled(s: Traced, e: Event, max: nat, m: Stored)
    requires m in s.store.messages && IsUnread(m)
    requires var c := Confirms(s.store, e); c.None? || !Carries(c.value, m.id)
    ensures m in Next(s, e, max).store.messages
  {
    match e
    case Add(ms) =>
      UnreadAfterAdd(s.store, ms, max);
      UnreadHas(s.store.messages, m);
      UnreadHas(Next(s, e, max).store.messages, m);
    case Take(limit, after, cursor) =>
      var i :| 0 <= i < |s.store.messages| && s.store.messages[i] == m;
      assert BeforeTake(s.store, after).messages[i] == m;
  }

  /** The message has been in no batch handed out so far. */
  ghost predicate NeverHanded(s: Traced, serial: nat) {
    forall n :: 0 <= n < |s.handed| ==> forall m :: m in s.handed[n].messages ==> m.serial != serial
  }

  /** Some step of `[i, j)` confirms a retained batch that carries `id`. */
  ghost predicate IdConfirmed(ss: seq<Traced>, es: seq<Event>, i: nat, j: nat, id: string)
    requires j <= |ss| && j <= |es|
  {
    exists t :: i <= t < j && Confirms(ss[t].store, es[t]).Some? && Carries(Confirms(ss[t].store, es[t]).value, id)
  }

  /** In every run, a message unread at `i` is settled by `j` if and only if a batch that carries its id was confirmed
      in between, whatever batches were handed out. */
  lemma {:induction false} SettledIff(ss: seq<Traced>, es: seq<Event>, max: nat, i: nat, j: nat, m: Stored)
    requires IsRun(ss, es, max) && i <= j <= |es| && m in ss[i].store.messages && IsUnread(m)
    ensures Done(ss[j].store, m.serial) <==> IdConfirmed(ss, es, i, j, m.id)
    ensures m in ss[j].store.messages || IdConfirmed(ss, es, i, j, m.id)
  {
    hide Next, Faithful;
    if i == j {
      RunValid(ss, es, max, i);
      AscendingBelow(ss[i].store.messages, ss[i].store.next, m);
    } else {
      SettledIff(ss, es, max, i, j - 1, m);
      RunFaithful(ss, es, max, j - 1);
      assert ss[j - 1 + 1] == Next(ss[j - 1], es[j - 1], max);
      OneMoreConfirmed(ss, es, i, j, m.id);
      if IdConfirmed(ss, es, i, j - 1, m.id) {
        DoneStays(ss, es, max, j - 1, j, m.serial);
      } else {
        LastStepSettles(ss[j - 1], es[j - 1], max, m);
      }
    }
  }

  lemma RunValid(ss: seq<Traced>, es: seq<Event>, max: nat, i: nat)
    requires IsRun(ss, es, max) && i <= |es|
    ensures Valid(ss[i].store)
  {
    RunFaithful(ss, es, max, i);
  }

  lemma OneMoreConfirmed(ss: seq<Traced>, es: seq<Event>, i: nat, j: nat, id: string)
    requires i < j <= |es| && j <= |ss|
    ensures IdConfirmed(ss, es, i, j, id)
       <==> IdConfirmed(ss, es, i, j - 1, id)
            || (Confirms(ss[j - 1].store, es[j - 1]).Some? && Carries(Confirms(ss[j - 1].store, es[j - 1]).value, id))
  {
    hide Confirms, Carries;
  }

  lemma LastStepSettles(s: Traced, e: Event, max: nat, m: Stored)
    requires Faithful(s) && m in s.store.messages && IsUnread(m)
    ensures
      var c := Confirms(s.store, e);
      if c.Some? && Carries(c.value, m.id) then Done(Next(s, e, max).store, m.serial)
      else m in Next(s, e, max).store.messages && !Done(Next(s, e, max).store, m.serial)
  {
    var c := Confirms(s.store, e);
    if c.Some? && Carries(c.value, m.id) {
      ConfirmSettles(s.store, e.limit, e.after.value, e.cursor, m);
    } else {
      NotSettled(s, e, max, m);
    }
  }

  /** So a message the client has never been handed is lost, settled in no batch, if and only if a batch that carries
      its id on other messages only was confirmed. */
  lemma LostUnseenIff(ss: seq<Traced>, es: seq<Event>, max: nat, i: nat, j: nat, m: Stored)
    requires IsRun(ss, es, max) && i <= j <= |es| && m in ss[i].store.messages && IsUnread(m) && NeverHanded(ss[j], m.serial)
    ensures Done(ss[j].store, m.serial)
       <==> exists t :: i <= t < j && ConfirmsOthers(ss[t].store, es[t], m)
  {
    SettledIff(ss, es, max, i, j, m);
    if Done(ss[j].store, m.serial) {
      var t :| i <= t < j && Confirms(ss[t].store, es[t]).Some? && Carries(Confirms(ss[t].store, es[t]).value, m.id);
      RunFaithful(ss, es, max, t);
      RetainedWasHanded(ss[t], IndexOfCursor(ss[t].store.cursors, es[t].after.value).value);
      HandedGrows(ss, es, max, t, j);
      assert ConfirmsOthers(ss[t].store, es[t], m);
    }
  }

  /** The step confirms a batch with the message's id in it but not the message. */
  ghost predicate ConfirmsOthers(s: Store, e: Event, m: Stored) {
    Confirms(s, e).Some? && Carries(Confirms(s, e).value, m.id) && !Has(Confirms(s, e).value, m.serial)
  }

  lemma {:induction false} HandedGrows(ss: seq<Traced>, es: seq<Event>, max: nat, i: nat, j: nat)
    requires IsRun(ss, es, max) && i <= j <= |es|
    ensures ss[i].handed <= ss[j].handed
  {
    if i < j {
      HandedGrows(ss, es, max, i, j - 1);
      assert ss[j - 1 + 1] == Next(ss[j - 1], es[j - 1], max);
    }
  }

  lemma PairWaits(a: Incoming, b: Incoming, max: nat)
    requires a.direction == In && b.direction == In
    ensures
      var r := Added(EMPTY.store, [a, b], max);
      Unread(r.messages) == [StoredAs(a, 0), StoredAs(b, 1)] && r.cursors == [] && r.next == 2
  {
    var both, x, y := Filed([a, b], 0), StoredAs(a, 0), StoredAs(b, 1);
    UnreadAfterAdd(EMPTY.store, [a, b], max);
    assert both == [x, y] && [x, y][..1] == [x] && [x][..0] == [];
    assert Unread([x, y]) == [x, y];
  }

  lemma OneIsTaken(s: Store, x: Stored, y: Stored, c: string)
    requires Unread(s.messages) == [x, y] && s.cursors == []
    ensures Batch(s, 1, None) == [x] && Taken(s, 1, None, c) == s.(cursors := [CursorRecord(c, [x], false)])
  {
  }

  lemma BothAreSettled(s: Store, x: Stored, y: Stored, limit: nat, c: string, d: string)
    requires Unread(s.messages) == [x, y] && s.cursors == [CursorRecord(c, [x], false)] && x.id == y.id && c != ""
    ensures Batch(s, limit, Some(c)) == [] && Unread(Taken(s, limit, Some(c), d).messages) == []
  {
    var r := CursorRecord(c, [x], false);
    assert IndexOfCursor([r], c) == Some(0) by { assert r in [r]; }
    UnreadAfterConfirm(s.messages, r);
    assert x in r.messages && Carries(r, x.id);
    assert [x, y][..1] == [x] && [x][..0] == [];
    assert NotCarried([x], r) == [] && NotCarried([x, y], r) == [];
  }

  lemma NothingWaits(s: Store, serial: nat)
    requires Unread(s.messages) == [] && serial < s.next
    ensures Done(s, serial)
  {
    forall m | m in s.messages ensures !IsUnread(m) { UnreadHas(s.messages, m); }
  }

  /** It happens: of two messages stored under one id, one is read, its batch is confirmed, and the other is
      gone from every later read without having been in any batch. */
  lemma SharedIdIsLost(a: Incoming, b: Incoming, max: nat, limit: nat, c: string, d: string)
    requires a.direction == In && b.direction == In && a.id == b.id && c != ""
    ensures
      var s := Next(Next(Next(EMPTY, Add([a, b]), max), Take(1, None, c), max), Take(limit, Some(c), d), max);
      && s.handed == [Handed(c, [StoredAs(a, 0)]), Handed(d, [])]
      && Unread(s.store.messages) == [] && Done(s.store, 1)
  {
    hide Taken, Batch, Unread, Done;
    var x, y := StoredAs(a, 0), StoredAs(b, 1);
    var s1 := Added(EMPTY.store, [a, b], max);
    PairWaits(a, b, max);
    OneIsTaken(s1, x, y, c);
    var s2 := Taken(s1, 1, None, c);
    BothAreSettled(s2, x, y, limit, c, d);
    NextIsKept(s2, limit, Some(c), d);
    NothingWaits(Taken(s2, limit, Some(c), d), 1);
  }

  lemma NextIsKept(s: Store, limit: nat, after: Option<string>, cursor: string)
    ensures Taken(s, limit, after, cursor).next == s.next
  {
  }

  /** The stored object `serial` has been taken in and is not waiting to be read. */
  ghost predicate Done(s: Store, serial: nat) {
    serial < s.next && forall m :: m in s.messages && m.serial == serial ==> !IsUnread(m)
  }

  lemma AddKeepsDone(s: Store, ms: seq<Incoming>, max: nat, serial: nat)
    requires Done(s, serial)
    ensures Done(Added(s, ms, max), serial)
  {
    forall m | m in Added(s, ms, max).messages && m.serial == serial ensures !IsUnread(m) {
      AddedFrom(s, ms, max, m);
    }
  }

  lemma NextKeepsDone(s: Traced, e: Event, max: nat, serial: nat)
    requires Done(s.store, serial)
    ensures Done(Next(s, e, max).store, serial)
  {
    if e.Add? { AddKeepsDone(s.store, e.messages, max, serial); }
  }

  lemma {:induction false} DoneStays(ss: seq<Traced>, es: seq<Event>, max: nat, i: nat, j: nat, serial: nat)
    requires IsRun(ss, es, max) && i <= j <= |es| && Done(ss[i].store, serial)
    ensures Done(ss[j].store, serial)
  {
    if i < j {
      DoneStays(ss, es, max, i, j - 1, serial);
      NextKeepsDone(ss[j - 1], es[j - 1], max, serial);
      assert ss[j - 1 + 1] == Next(ss[j - 1], es[j - 1], max);
    }
  }

  /** Once read, never handed out again: no later read's batch contains that stored message. */
  lemma ReadIsNeverRepeated(ss: seq<Traced>, es: seq<Event>, max: nat, i: nat, j: nat, serial: nat)
    requires IsRun(ss, es, max) && i <= j < |es| && Done(ss[i].store, serial) && es[j].Take?
    ensures forall m :: m in Batch(ss[j].store, es[j].limit, es[j].after) ==> m.serial != serial
  {
    DoneStays(ss, es, max, i, j, serial);
    var s := ss[j].store;
    var r := BeforeTake(s, es[j].after).messages;
    forall m | m in Batch(s, es[j].limit, es[j].after) ensures m.serial != serial {
      UnreadHas(r, m);
      var k :| 0 <= k < |r| && r[k] == m;
      assert s.messages[k] in s.messages;
    }
  }

  /** Confirming a retained batch settles everything the ring holds under its ids. */
  lemma ConfirmSettles(s: Store, limit: nat, after: string, cursor: string, m: Stored)
    requires Valid(s) && m in s.messages && after != ""
    requires IndexOfCursor(s.cursors, after).Some? && Carries(s.cursors[IndexOfCursor(s.cursors, after).value], m.id)
    ensures Done(Taken(s, limit, Some(after), cursor), m.serial)
  {
    AscendingBelow(s.messages, s.next, m);
    var i :| 0 <= i < |s.messages| && s.messages[i] == m;
    var r := BeforeTake(s, Some(after)).messages;
    forall x | x in r && x.serial == m.serial ensures !IsUnread(x) {
      var k :| 0 <= k < |r| && r[k] == x;
      if k != i { SerialsDiffer(s.messages, s.next, if k < i then k else i, if k < i then i else k); }
    }
  }

  lemma {:induction false} SerialsDiffer(ms: seq<Stored>, below: nat, a: nat, b: nat)
    requires Ascending(ms, below) && a < b < |ms|
    ensures ms[a].serial < ms[b].serial
  {
    var n := |ms| - 1;
    if b == n {
      assert ms[a] in ms[..n];
      AscendingBelow(ms[..n], ms[n].serial, ms[a]);
    } else {
      SerialsDiffer(ms[..n], ms[n].serial, a, b);
    }
  }

  /** Each batch is a prefix of the unread sequence in arrival order: the oldest waiting message is always in
      it, and only what is not yet read. */
  lemma BatchIsOldestUnread(s: Store, limit: nat, after: Option<string>)
    requires Valid(s)
    ensures
      var waiting, b := Unread(BeforeTake(s, after).messages), Batch(s, limit, after);
      && b <= waiting && |b| == (if |waiting| <= limit then |waiting| else limit)
      && Ascending(waiting, s.next)
  {
    SameSerialsAscending(s.messages, BeforeTake(s, after).messages, s.next);
    UnreadAscending(BeforeTake(s, after).messages, s.next);
  }

  lemma {:induction false} UnreadAscending(ms: seq<Stored>, below: nat)
    requires Ascending(ms, below)
    ensures Ascending(Unread(ms), below)
  {
    if ms != [] {
      var n := |ms| - 1;
      UnreadAscending(ms[..n], ms[n].serial);
      var u := Unread(ms[..n]);
      AscendingWider(u, ms[n].serial, below);
      assert (u + [ms[n]])[..|u|] == u;
      assert u + [] == u;
    }
  }

  // ---------------------------------------------------------------------
  // Backpressure
  // ---------------------------------------------------------------------

  /** The connector around its store. A poll checks for room, awaits the relay and adds what it got; sends
      and reads may come in between, another poll may not. */
  datatype Connector = Connector(store: Store, polling: bool)

  datatype Action =
    | PollStarts
    | PollReturns(accepted: seq<Incoming>)
    | PollFails
    | Sent(message: Incoming)
    | Reads(limit: nat, after: Option<string>, cursor: string)

  ghost predicate Enabled(c: Connector, a: Action, k: nat) {
    match a
    case PollStarts => true
    case PollReturns(accepted) => c.polling && |accepted| <= k && forall m :: m in accepted ==> m.direction == In
    case PollFails => c.polling
    case Sent(m) => m.direction == Out
    case Reads(_, _, _) => true
  }

  function Act(c: Connector, a: Action, max: nat): Connector {
    match a
    case PollStarts => if c.polling || !HasRoom(c.store, max) then c else c.(polling := true)
    case PollReturns(accepted) => Connector(Added(c.store, accepted, max), false)
    case PollFails => c.(polling := false)
    case Sent(m) => c.(store := Added(c.store, [m], max))
    case Reads(limit, after, cursor) => c.(store := Taken(c.store, limit, after, cursor))
  }

  ghost predicate IsSession(cs: seq<Connector>, acts: seq<Action>, max: nat, k: nat) {
    && |cs| == |acts| + 1 && cs[0] == Connector(Store([], [], [], 0), false)
    && forall i :: 0 <= i < |acts| ==> Enabled(cs[i], acts[i], k) && cs[i + 1] == Act(cs[i], acts[i], max)
  }

  ghost predicate Pressed(c: Connector, max: nat, k: nat) {
    && Valid(c.store)
    && |c.store.messages| <= max + k
    && |Unread(c.store.messages)| <= max + k - 1
    && (c.polling ==> |Unread(c.store.messages)| < max)
  }

  lemma ReadsPressed(s: Store, limit: nat, after: Option<string>, cursor: string)
    ensures |Taken(s, limit, after, cursor).messages| == |s.messages|
    ensures |Unread(Taken(s, limit, after, cursor).messages)| <= |Unread(s.messages)|
  {
    var i := IndexOfCursor(s.cursors, if after.Some? then after.value else "");
    if i.Some? {
      UnreadAfterConfirm(s.messages, s.cursors[i.value]);
      NotCarriedSize(Unread(s.messages), s.cursors[i.value]);
    }
  }

  lemma {:induction false} NotCarriedSize(ms: seq<Stored>, c: CursorRecord)
    ensures |NotCarried(ms, c)| <= |ms|
  {
    if ms != [] { NotCarriedSize(ms[..|ms| - 1], c); }
  }

  lemma AddPressed(s: Store, ms: seq<Incoming>, max: nat)
    requires Valid(s)
    ensures Valid(Added(s, ms, max))
    ensures ms != [] ==> |Added(s, ms, max).messages| <= max || |Added(s, ms, max).messages| <= |Unread(s.messages)| + |ms|
    ensures |Unread(Added(s, ms, max).messages)| <= |Unread(s.messages)| + |ms|
  {
    AddedValid(s, ms, max);
    if ms != [] { AddedSize(s, ms, max); }
    UnreadAfterAdd(s, ms, max);
    UnreadSize(Filed(ms, s.next));
  }

  lemma OutIsNotUnread(s: Store, m: Incoming, max: nat)
    requires m.direction == Out
    ensures |Unread(Added(s, [m], max).messages)| == |Unread(s.messages)|
  {
    UnreadAfterAdd(s, [m], max);
    NoneUnread(Filed([m], s.next));
  }

  lemma {:induction false} NoneUnread(ms: seq<Stored>)
    requires forall i :: 0 <= i < |ms| ==> !IsUnread(ms[i])
    ensures Unread(ms) == []
  {
    if ms != [] { NoneUnread(ms[..|ms| - 1]); }
  }

  lemma ActPressed(c: Connector, a: Action, max: nat, k: nat)
    requires Pressed(c, max, k) && Enabled(c, a, k) && k >= 1
    ensures Pressed(Act(c, a, max), max, k)
  {
    match a
    case PollStarts =>
    case PollReturns(accepted) => AddPressed(c.store, accepted, max);
    case PollFails =>
    case Sent(m) => AddPressed(c.store, [m], max); OutIsNotUnread(c.store, m, max);
    case Reads(limit, after, cursor) => TakenValid(c.store, limit, after, cursor); ReadsPressed(c.store, limit, after, cursor);
  }

  /** If a poll brings at most `k` messages (and k is at least one), the ring never exceeds its bound by more
      than k, although sends slip in between a poll's room check and its add and nothing unread is evicted. */
  lemma {:induction false} Backpressure(cs: seq<Connector>, acts: seq<Action>, max: nat, k: nat, i: nat)
    requires IsSession(cs, acts, max, k) && k >= 1 && i <= |acts|
    ensures Pressed(cs[i], max, k)
  {
    if i > 0 {
      Backpressure(cs, acts, max, k, i - 1);
      ActPressed(cs[i - 1], acts[i - 1], max, k);
      assert cs[i - 1 + 1] == Act(cs[i - 1], acts[i - 1], max);
    }
  }

  // ---------------------------------------------------------------------
  // What the agent sent
  // ---------------------------------------------------------------------

  ghost predicate SentMarked(ms: seq<Stored>) {
    forall m :: m in ms && m.direction == Out ==> m.delivered == Some("self")
  }

  lemma AddedStaysMarked(s: Store, ms: seq<Incoming>, max: nat)
    requires SentMarked(s.messages)
    ensures SentMarked(Added(s, ms, max).messages)
  {
    if ms != [] {
      hide Trimmed;
      var all := s.messages + Filed(ms, s.next);
      FiledIsMarked(ms, s.next);
      TrimKeeps(all, |all| - max, s.next);
      assert SentMarked(all);
    }
  }

  lemma FiledIsMarked(ms: seq<Incoming>, next: nat)
    ensures SentMarked(Filed(ms, next))
  {
  }

  lemma ReadStaysMarked(ms: seq<Stored>, c: CursorRecord)
    requires SentMarked(ms)
    ensures SentMarked(MarkRead(ms, c))
  {
    forall m | m in MarkRead(ms, c) && m.direction == Out ensures m.delivered == Some("self") {
      var i :| 0 <= i < |ms| && MarkRead(ms, c)[i] == m;
      assert ms[i] in ms;
    }
  }

  lemma TakenStaysMarked(s: Store, limit: nat, after: Option<string>, cursor: string)
    requires SentMarked(s.messages)
    ensures SentMarked(Taken(s, limit, after, cursor).messages)
  {
    hide SentMarked, MarkRead;
    if after.Some? && after.value != "" && IndexOfCursor(s.cursors, after.value).Some? {
      ReadStaysMarked(s.messages, s.cursors[IndexOfCursor(s.cursors, after.value).value]);
    }
  }

  lemma SentStaysMarked(s: Traced, e: Event, max: nat)
    requires SentMarked(s.store.messages)
    ensures SentMarked(Next(s, e, max).store.messages)
  {
    hide SentMarked, Added, Taken;
    match e
    case Add(ms) => AddedStaysMarked(s.store, ms, max);
    case Take(limit, after, cursor) => TakenStaysMarked(s.store, limit, after, cursor);
  }

  /** In every run a message the agent sent counts as delivered by itself, whatever is confirmed. */
  lemma {:induction false} SentIsOurs(ss: seq<Traced>, es: seq<Event>, max: nat, i: nat, m: Stored)
    requires IsRun(ss, es, max) && i <= |es| && m in ss[i].store.messages && m.direction == Out
    ensures m.delivered == Some("self")
  {
    RunSentMarked(ss, es, max, i);
  }

  lemma {:induction false} RunSentMarked(ss: seq<Traced>, es: seq<Event>, max: nat, i: nat)
    requires IsRun(ss, es, max) && i <= |es|
    ensures SentMarked(ss[i].store.messages)
  {
    if i > 0 {
      RunSentMarked(ss, es, max, i - 1);
      SentStaysMarked(ss[i - 1], es[i - 1], max);
      assert ss[i - 1 + 1] == Next(ss[i - 1], es[i - 1], max);
    }
  }
}
