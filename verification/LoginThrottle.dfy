/** The relay's login throttle: failure counters per account and per address, checked before each attempt and
    bounded in number. */
module LoginThrottling {
  import opened OrderedMaps
  import opened FixedWindow

  /** Account and address counters never share a key. */
  datatype Key = Account(name: string) | Address(ip: string)

  /** A bucket counts failures from the window's start until it resets. */
  type Buckets = map<Key, Window>

  datatype Options = Options(maxFailures: nat, windowMs: int, maxBuckets: nat)

  /** A bucket is created holding one failure, so a limit below one acts as one. */
  function RuleOf(o: Options): Rule {
    Rule(if o.maxFailures < 1 then 1 else o.maxFailures, o.windowMs, false)
  }

  predicate Lapsed(o: Options, w: Window, now: int) {
    w.start + o.windowMs <= now
  }

  predicate Blocks(o: Options, m: Buckets, k: Key, now: int) {
    k in m && !Lapsed(o, m[k], now) && m[k].count >= o.maxFailures
  }

  function Forget(o: Options, m: Buckets, k: Key, now: int): Buckets {
    if k in m && Lapsed(o, m[k], now) then m - {k} else m
  }

  function Swept(o: Options, m: Buckets, now: int): Buckets {
    map k | k in m && !Lapsed(o, m[k], now) :: m[k]
  }

  /** One counter of a failed attempt; when the cap is hit even after a sweep, no new bucket is made. */
  function RecordKey(o: Options, m: Buckets, k: Key, now: int): Buckets {
    if k in m && !Lapsed(o, m[k], now) then m[k := Window(m[k].count + 1, m[k].start)]
    else if k in m || |m| < o.maxBuckets then m[k := Window(1, now)]
    else
      var s := Swept(o, m, now);
      if |s| >= o.maxBuckets then s else s[k := Window(1, now)]
  }

  /** An attempt checked at `now`; its outcome is recorded at `settled`, once the password has been verified.
      No other login comes in between. */
  datatype Login = Login(account: string, ip: string, valid: bool, now: int, settled: int)

  function Checked(o: Options, m: Buckets, l: Login): Buckets {
    Forget(o, Forget(o, m, Account(l.account), l.now), Address(l.ip), l.now)
  }

  predicate Allowed(o: Options, m: Buckets, l: Login) {
    !Blocks(o, m, Account(l.account), l.now) && !Blocks(o, m, Address(l.ip), l.now)
  }

  function Recorded(o: Options, m: Buckets, l: Login): Buckets {
    RecordKey(o, RecordKey(o, m, Account(l.account), l.settled), Address(l.ip), l.settled)
  }

  /** One login: checked first; a failure counts against both keys, a success clears the account's. */
  function Next(o: Options, m: Buckets, l: Login): Buckets {
    var c := Checked(o, m, l);
    if !Allowed(o, m, l) then c
    else if l.valid then c - {Account(l.account)} else Recorded(o, c, l)
  }

  // ---------------------------------------------------------------------
  // What a login leaves behind
  // ---------------------------------------------------------------------

  ghost function Live(o: Options, m: Buckets, now: int): set<Key> {
    set k | k in m && now < m[k].start + o.windowMs
  }

  lemma SweptKeys(o: Options, m: Buckets, now: int)
    ensures Swept(o, m, now).Keys == Live(o, m, now) && |Swept(o, m, now)| == |Live(o, m, now)| <= |m|
  {
    var s := Swept(o, m, now);
    assert s.Keys == Live(o, m, now);
    assert |s| == |s.Keys| && |m| == |m.Keys|;
    assert m.Keys == Live(o, m, now) + (m.Keys - Live(o, m, now));
  }

  /** A failure is counted for a key, from one up in its open window and as the first of a new one otherwise, if and only if
      the key has a bucket already or fewer than `maxBuckets` buckets are unlapsed. No unlapsed bucket of another key is
      touched. */
  lemma CountedIff(o: Options, m: Buckets, k: Key, now: int)
    ensures
      var r := RecordKey(o, m, k, now);
      && (k in m || |Live(o, m, now)| < o.maxBuckets
          <==> k in r && r[k] == if k in Live(o, m, now) then Window(m[k].count + 1, m[k].start) else Window(1, now))
      && (forall x :: x in Live(o, m, now) && x != k ==> x in r && r[x] == m[x])
  {
    SweptKeys(o, m, now);
  }

  /** After a login neither of its keys has a lapsed bucket, and a success has cleared the account's and left the address's
      alone. */
  lemma LoginLeaves(o: Options, m: Buckets, l: Login)
    ensures
      var r := Next(o, m, l);
      && (l.valid && Allowed(o, m, l) ==> Account(l.account) !in r)
      && (l.valid || !Allowed(o, m, l) ==>
            && (forall k :: k in r && (k == Account(l.account) || k == Address(l.ip)) ==> l.now < r[k].start + o.windowMs)
            && (Address(l.ip) in r <==> Address(l.ip) in Live(o, m, l.now))
            && (forall k :: k in r ==> k in m && r[k] == m[k])
            && (forall k :: k in m && k != Account(l.account) && k != Address(l.ip) ==> k in r))
  {
  }

  // ---------------------------------------------------------------------
  // Memory
  // ---------------------------------------------------------------------

  lemma KeysSize(a: Buckets, b: Buckets)
    requires a.Keys <= b.Keys
    ensures |a| <= |b|
  {
    assert |a| == |a.Keys| && |b| == |b.Keys|;
    assert b.Keys == a.Keys + (b.Keys - a.Keys);
  }

  lemma RecordKeySize(o: Options, m: Buckets, k: Key, now: int)
    requires |m| <= o.maxBuckets
    ensures |RecordKey(o, m, k, now)| <= o.maxBuckets
  {
    KeysSize(Swept(o, m, now), m);
  }

  /** However many distinct accounts and addresses are tried, the map never outgrows its cap. */
  lemma NeverOutgrows(o: Options, m: Buckets, l: Login)
    requires |m| <= o.maxBuckets
    ensures |Next(o, m, l)| <= o.maxBuckets
  {
    var c := Checked(o, m, l);
    KeysSize(Forget(o, m, Account(l.account), l.now), m);
    KeysSize(c, Forget(o, m, Account(l.account), l.now));
    KeysSize(c - {Account(l.account)}, c);
    RecordKeySize(o, c, Account(l.account), l.settled);
    RecordKeySize(o, RecordKey(o, c, Account(l.account), l.settled), Address(l.ip), l.settled);
  }

  // ---------------------------------------------------------------------
  // Failures per window
  // ---------------------------------------------------------------------

  function After(o: Options, ls: seq<Login>): Buckets {
    if ls == [] then map[] else Next(o, After(o, ls[..|ls| - 1]), ls[|ls| - 1])
  }

  predicate Names(l: Login, k: Key) {
    k == Account(l.account) || k == Address(l.ip)
  }

  /** The times at which a failure of `k` was let through and recorded. */
  function FailuresOf(o: Options, ls: seq<Login>, k: Key): seq<int> {
    if ls == [] then []
    else
      var l, before := ls[|ls| - 1], After(o, ls[..|ls| - 1]);
      FailuresOf(o, ls[..|ls| - 1], k) + (if Names(l, k) && !l.valid && Allowed(o, before, l) then [l.settled] else [])
  }

  /** `k` has had no success clear it, and no failure of it went uncounted because the map was full. */
  ghost predicate Tracked(o: Options, ls: seq<Login>, k: Key) {
    ls == [] || (
      var l, before := ls[|ls| - 1], After(o, ls[..|ls| - 1]);
      && Tracked(o, ls[..|ls| - 1], k)
      && (l.valid ==> k != Account(l.account))
      && (Names(l, k) && !l.valid && Allowed(o, before, l) ==> k in Next(o, before, l)))
  }

  ghost predicate Clocked(ls: seq<Login>, until: int) {
    ls == [] || (ls[|ls| - 1].now <= ls[|ls| - 1].settled <= until && Clocked(ls[..|ls| - 1], ls[|ls| - 1].now))
  }

  /** `k`'s bucket is `w`, or is gone because `w` had lapsed. */
  ghost predicate Reflects(o: Options, m: Buckets, k: Key, w: Option<Window>, now: int) {
    if k in m then w == Some(m[k]) else w.Some? ==> Lapsed(o, w.value, now)
  }

  /** Between `m` and `n`, `k`'s bucket can only have lapsed away. */
  ghost predicate Faded(o: Options, m: Buckets, n: Buckets, k: Key, now: int) {
    && (k in n ==> k in m && n[k] == m[k])
    && (k in m && k !in n ==> Lapsed(o, m[k], now))
  }

  lemma CheckedFades(o: Options, m: Buckets, l: Login, k: Key)
    ensures Faded(o, m, Checked(o, m, l), k, l.now)
  {
  }

  lemma OtherKeyFades(o: Options, m: Buckets, other: Key, k: Key, now: int)
    requires other != k
    ensures Faded(o, m, RecordKey(o, m, other, now), k, now)
  {
  }

  /** A recorded failure of `k` continues its window, whichever of the two counters it is. */
  lemma RecordsHit(o: Options, m: Buckets, k: Key, w: Option<Window>, now: int)
    requires o.windowMs > 0 && Reflects(o, m, k, w, now) && k in RecordKey(o, m, k, now)
    ensures RecordKey(o, m, k, now)[k] == Counted(RuleOf(o), w, now)
  {
  }

  lemma StillReflects(o: Options, m: Buckets, n: Buckets, k: Key, w: Option<Window>, now: int)
    requires Reflects(o, m, k, w, now) && Faded(o, m, n, k, now)
    ensures Reflects(o, n, k, w, now)
  {
  }

  lemma ReflectsLater(o: Options, m: Buckets, k: Key, w: Option<Window>, now: int, later: int)
    requires Reflects(o, m, k, w, now) && now <= later
    ensures Reflects(o, m, k, w, later)
  {
  }

  lemma FailureReflects(o: Options, m: Buckets, l: Login, k: Key, w: Option<Window>)
    requires o.windowMs > 0 && Reflects(o, m, k, w, l.now) && l.now <= l.settled && Names(l, k) && !l.valid && Allowed(o, m, l)
    requires k in Next(o, m, l)
    ensures Next(o, m, l)[k] == Counted(RuleOf(o), w, l.settled)
    ensures !Blocked(RuleOf(o), w, l.settled)
  {
    var c := Checked(o, m, l);
    CheckedFades(o, m, l, k);
    StillReflects(o, m, c, k, w, l.now);
    ReflectsLater(o, c, k, w, l.now, l.settled);
    var a, b := Account(l.account), Address(l.ip);
    var mid := RecordKey(o, c, a, l.settled);
    if k == a {
      OtherKeyFades(o, mid, b, a, l.settled);
      RecordsHit(o, c, a, w, l.settled);
    } else {
      OtherKeyFades(o, c, a, b, l.settled);
      StillReflects(o, c, mid, b, w, l.settled);
      RecordsHit(o, mid, b, w, l.settled);
    }
  }

  lemma OthersReflect(o: Options, m: Buckets, l: Login, k: Key, w: Option<Window>)
    requires Reflects(o, m, k, w, l.now) && l.now <= l.settled && (l.valid ==> k != Account(l.account))
    requires !(Names(l, k) && !l.valid && Allowed(o, m, l))
    ensures Reflects(o, Next(o, m, l), k, w, l.settled)
  {
    var c := Checked(o, m, l);
    CheckedFades(o, m, l, k);
    StillReflects(o, m, c, k, w, l.now);
    ReflectsLater(o, c, k, w, l.now, l.settled);
    if Allowed(o, m, l) && !l.valid {
      var mid := RecordKey(o, c, Account(l.account), l.settled);
      OtherKeyFades(o, c, Account(l.account), k, l.settled);
      StillReflects(o, c, mid, k, w, l.settled);
      OtherKeyFades(o, mid, Address(l.ip), k, l.settled);
      StillReflects(o, mid, Next(o, m, l), k, w, l.settled);
    }
  }

  lemma {:induction false} BucketsReflectFailures(o: Options, ls: seq<Login>, k: Key, until: int)
    requires o.windowMs > 0 && Tracked(o, ls, k) && Clocked(ls, until)
    ensures Reflects(o, After(o, ls), k, FixedWindow.After(RuleOf(o), None, FailuresOf(o, ls, k)), until)
    ensures AllCounted(RuleOf(o), FailuresOf(o, ls, k)) && Climbing(FailuresOf(o, ls, k), until)
  {
    if ls != [] {
      var init, l := ls[..|ls| - 1], ls[|ls| - 1];
      var m, ts := After(o, init), FailuresOf(o, init, k);
      BucketsReflectFailures(o, init, k, l.now);
      ClimbingWider(ts, l.now, l.settled);
      ClimbingWider(ts, l.now, until);
      var w := FixedWindow.After(RuleOf(o), None, ts);
      if Names(l, k) && !l.valid && Allowed(o, m, l) {
        FailureReflects(o, m, l, k, w);
        assert (ts + [l.settled])[..|ts|] == ts;
      } else {
        OthersReflect(o, m, l, k, w);
        ReflectsLater(o, Next(o, m, l), k, w, l.settled, until);
        assert ts + [] == ts;
      }
    }
  }

  /** With a nondecreasing clock and every attempt checked first: in any closed interval of one window's length,
      a tracked key is let fail at most twice its limit. */
  lemma FailuresAreBounded(o: Options, ls: seq<Login>, k: Key, from: int)
    requires o.windowMs > 0 && Tracked(o, ls, k) && Clocked(ls, from + o.windowMs)
    ensures CountFrom(FailuresOf(o, ls, k), from) <= 2 * RuleOf(o).max
  {
    var r, ts := RuleOf(o), FailuresOf(o, ls, k);
    BucketsReflectFailures(o, ls, k, from + o.windowMs);
    CountedAreAdmitted(r, ts, from);
    ClimbingIsOrdered(ts, from + o.windowMs);
    AtMostTwice(r, None, ts, from);
  }

  // ---------------------------------------------------------------------
  // The bound is met
  // ---------------------------------------------------------------------

  /** Wrong passwords for one account from one address. */
  function Guesses(account: string, ip: string, ts: seq<int>): (ls: seq<Login>)
    ensures |ls| == |ts| && forall i :: 0 <= i < |ts| ==> ls[i] == Login(account, ip, false, ts[i], ts[i])
  {
    seq(|ts|, i requires 0 <= i < |ts| => Login(account, ip, false, ts[i], ts[i]))
  }

  /** Only the two counters of the one account and address are held. */
  ghost predicate OnlyThese(m: Buckets, account: string, ip: string) {
    |m| <= 2 && m.Keys <= {Account(account), Address(ip)}
  }

  lemma RecordedHere(o: Options, m: Buckets, account: string, ip: string, k: Key, now: int)
    requires OnlyThese(m, account, ip) && o.maxBuckets >= 2 && (k == Account(account) || k == Address(ip))
    ensures k in RecordKey(o, m, k, now) && OnlyThese(RecordKey(o, m, k, now), account, ip)
  {
    var both := {Account(account), Address(ip)};
    if k !in m {
      assert m.Keys <= both - {k};
      KeysWithin(m, both - {k});
    }
    KeysWithin(RecordKey(o, m, k, now), both);
  }

  lemma KeysWithin(m: Buckets, ks: set<Key>)
    requires m.Keys <= ks
    ensures |m| <= |ks|
  {
    assert |m| == |m.Keys|;
    assert ks == m.Keys + (ks - m.Keys);
  }

  lemma GuessRecorded(o: Options, m: Buckets, l: Login)
    requires OnlyThese(m, l.account, l.ip) && o.maxBuckets >= 2 && !l.valid
    ensures OnlyThese(Next(o, m, l), l.account, l.ip)
    ensures Allowed(o, m, l) ==> Account(l.account) in Next(o, m, l) && Address(l.ip) in Next(o, m, l)
  {
    var c, both := Checked(o, m, l), {Account(l.account), Address(l.ip)};
    KeysWithin(c, both);
    if Allowed(o, m, l) {
      var mid := RecordKey(o, c, Account(l.account), l.settled);
      RecordedHere(o, c, l.account, l.ip, Account(l.account), l.settled);
      RecordedHere(o, mid, l.account, l.ip, Address(l.ip), l.settled);
    }
  }

  /** What the induction over a run of guesses carries. */
  ghost predicate LetThrough(o: Options, ls: seq<Login>, account: string, ip: string, ts: seq<int>, k: Key) {
    OnlyThese(After(o, ls), account, ip) && Tracked(o, ls, k) && FailuresOf(o, ls, k) == ts
  }

  lemma GuessAllowed(o: Options, ls: seq<Login>, l: Login, ts: seq<int>)
    requires o.windowMs > 0 && o.maxFailures >= 1 && Clocked(ls, l.now) && !Blocked(RuleOf(o), FixedWindow.After(RuleOf(o), None, ts), l.now)
    requires LetThrough(o, ls, l.account, l.ip, ts, Account(l.account)) && LetThrough(o, ls, l.account, l.ip, ts, Address(l.ip))
    ensures Allowed(o, After(o, ls), l)
  {
    BucketsReflectFailures(o, ls, Account(l.account), l.now);
    BucketsReflectFailures(o, ls, Address(l.ip), l.now);
  }

  lemma GuessStep(o: Options, ls: seq<Login>, l: Login, ts: seq<int>, k: Key)
    requires o.maxBuckets >= 2 && !l.valid && Names(l, k) && Allowed(o, After(o, ls), l)
    requires LetThrough(o, ls, l.account, l.ip, ts, k)
    ensures LetThrough(o, ls + [l], l.account, l.ip, ts + [l.settled], k)
  {
    assert (ls + [l])[..|ls|] == ls;
    GuessRecorded(o, After(o, ls), l);
  }

  ghost predicate BothLetThrough(o: Options, account: string, ip: string, ts: seq<int>, until: int) {
    var ls := Guesses(account, ip, ts);
    && Clocked(ls, until)
    && LetThrough(o, ls, account, ip, ts, Account(account)) && LetThrough(o, ls, account, ip, ts, Address(ip))
  }

  lemma OneMoreGuess(o: Options, account: string, ip: string, ts: seq<int>, t: int, until: int)
    requires o.windowMs > 0 && o.maxFailures >= 1 && o.maxBuckets >= 2 && t <= until
    requires BothLetThrough(o, account, ip, ts, t) && !Blocked(RuleOf(o), FixedWindow.After(RuleOf(o), None, ts), t)
    ensures BothLetThrough(o, account, ip, ts + [t], until)
  {
    var ls, l := Guesses(account, ip, ts), Login(account, ip, false, t, t);
    GuessAllowed(o, ls, l, ts);
    GuessStep(o, ls, l, ts, Account(account));
    GuessStep(o, ls, l, ts, Address(ip));
    assert Guesses(account, ip, ts + [t]) == ls + [l];
    assert (ls + [l])[..|ls|] == ls;
  }

  /** Guesses that a fixed window lets through are let through by both counters. */
  lemma {:induction false} GuessesLetThrough(o: Options, account: string, ip: string, ts: seq<int>, until: int)
    requires o.windowMs > 0 && o.maxFailures >= 1 && o.maxBuckets >= 2
    requires AllCounted(RuleOf(o), ts) && Climbing(ts, until)
    ensures BothLetThrough(o, account, ip, ts, until)
  {
    if ts != [] {
      var n := |ts| - 1;
      GuessesLetThrough(o, account, ip, ts[..n], ts[n]);
      OneMoreGuess(o, account, ip, ts[..n], ts[n], until);
      assert ts[..n] + [ts[n]] == ts;
    }
  }

  /** Twice the limit is reached: the documented rolling window is a fixed one. */
  lemma FailuresBoundIsReached(o: Options, account: string, ip: string)
    requires o.windowMs > 0 && o.maxFailures >= 1 && o.maxBuckets >= 2
    ensures
      var ls := Guesses(account, ip, Filling(RuleOf(o)));
      && Clocked(ls, o.windowMs) && Tracked(o, ls, Account(account)) && Tracked(o, ls, Address(ip))
      && CountFrom(FailuresOf(o, ls, Account(account)), 0) == 2 * o.maxFailures
      && CountFrom(FailuresOf(o, ls, Address(ip)), 0) == 2 * o.maxFailures
  {
    var r := RuleOf(o);
    var ts := Filling(r);
    PromptFilling(r);
    AllAdmitted(r, ts, 0);
    OrderedClimbs(ts, o.windowMs);
    GuessesLetThrough(o, account, ip, ts, o.windowMs);
    CountedAreAdmitted(r, ts, 0);
  }

  // ---------------------------------------------------------------------
  // The object
  // ---------------------------------------------------------------------

  class LoginThrottle {
    var buckets: Buckets
    var overflowed: bool
    const opts: Options

    constructor (opts: Options)
      ensures this.opts == opts && buckets == map[] && !overflowed
    {
      this.opts := opts;
      buckets, overflowed := map[], false;
    }

    /** Whether the attempt may proceed; lapsed buckets met on the way are forgotten. */
    method Check(account: string, ip: string, now: int) returns (allowed: bool)
      modifies this`buckets
      ensures buckets == Checked(opts, old(buckets), Login(account, ip, false, now, now))
      ensures allowed == Allowed(opts, old(buckets), Login(account, ip, false, now, now))
    {
      var keys := [Account(account), Address(ip)];
      allowed := true;
      for i := 0 to |keys|
        invariant buckets == (if i == 0 then old(buckets)
                              else if i == 1 then Forget(opts, old(buckets), keys[0], now)
                              else Forget(opts, Forget(opts, old(buckets), keys[0], now), keys[1], now))
        invariant allowed <==> forall j :: 0 <= j < i ==> !Blocks(opts, old(buckets), keys[j], now)
      {
        if keys[i] in buckets {
          if Lapsed(opts, buckets[keys[i]], now) {
            buckets := buckets - {keys[i]};
          } else if buckets[keys[i]].count >= opts.maxFailures {
            allowed := false;
          }
        }
      }
      assert keys[0] == Account(account) && keys[1] == Address(ip);
    }

    method Sweep(now: int)
      modifies this`buckets
      ensures buckets == Swept(opts, old(buckets), now)
    {
      var todo := buckets.Keys;
      while todo != {}
        invariant forall k :: k in buckets ==> k in old(buckets) && buckets[k] == old(buckets)[k]
        invariant forall k :: k in old(buckets) && (k in todo || !Lapsed(opts, old(buckets)[k], now)) ==> k in buckets
        invariant forall k :: k in buckets && k !in todo ==> !Lapsed(opts, buckets[k], now)
        invariant todo <= old(buckets).Keys
        decreases |todo|
      {
        var k :| k in todo;
        todo := todo - {k};
        if Lapsed(opts, buckets[k], now) { buckets := buckets - {k}; }
      }
    }

    method RecordOne(k: Key, now: int)
      modifies this
      ensures buckets == RecordKey(opts, old(buckets), k, now)
      ensures !overflowed ==> !old(overflowed)
    {
      if k in buckets && !Lapsed(opts, buckets[k], now) {
        buckets := buckets[k := Window(buckets[k].count + 1, buckets[k].start)];
        return;
      }
      if k !in buckets && |buckets| >= opts.maxBuckets {
        Sweep(now);
        if |buckets| >= opts.maxBuckets {
          overflowed := true;
          return;
        }
      }
      buckets := buckets[k := Window(1, now)];
    }

    method RecordFailure(account: string, ip: string, now: int)
      modifies this
      ensures buckets == Recorded(opts, old(buckets), Login(account, ip, false, now, now))
    {
      RecordOne(Account(account), now);
      RecordOne(Address(ip), now);
    }

    method RecordSuccess(account: string)
      modifies this`buckets
      ensures buckets == old(buckets) - {Account(account)}
    {
      buckets := buckets - {Account(account)};
    }
  }
}
