/** The connector's per-client token bucket, over exact arithmetic: `perMinute` tokens, refilled continuously. */
module TokenBuckets {
  import opened OrderedMaps

  datatype Bucket = Bucket(tokens: real, updatedAt: int)

  type Buckets = OMap<string, Bucket>

  datatype Limit = Limit(perMinute: real, maxKeys: nat) {
    function PerMs(): real { perMinute / 60000.0 }
  }

  datatype Decision = Ok | Wait(retryAfterSeconds: int)

  function Min(a: real, b: real): real {
    if a <= b then a else b
  }

  function Ceiling(x: real): int {
    -((-x).Floor)
  }

  /** What flows in between two times. */
  function Inflow(l: Limit, a: int, b: int): real {
    (b - a) as real * l.PerMs()
  }

  /** A bucket refilled up to now; a new client starts full. */
  function Refill(l: Limit, had: Option<Bucket>, now: int): Bucket {
    match had
    case None => Bucket(l.perMinute, now)
    case Some(b) => Bucket(Min(l.perMinute, b.tokens + Inflow(l, b.updatedAt, now)), now)
  }

  function Refilled(l: Limit, m: Buckets, key: string, now: int): Bucket {
    Refill(l, m.Get(key), now)
  }

  function Stored(l: Limit, m: Buckets, key: string, b: Bucket): (r: Buckets)
    ensures m.Valid() ==> r.Valid()
  {
    m.Remove(key).Set(key, b).EvictTo(l.maxKeys)
  }

  function Decide(l: Limit, b: Bucket): Decision
    requires l.perMinute > 0.0
  {
    if b.tokens >= 1.0 then Ok
    else
      var wait := Ceiling((1.0 - b.tokens) / l.PerMs() / 1000.0);
      Wait(if wait < 1 then 1 else wait)
  }

  function Spent(b: Bucket): Bucket {
    if b.tokens >= 1.0 then Bucket(b.tokens - 1.0, b.updatedAt) else b
  }

  function Taken(l: Limit, m: Buckets, key: string, now: int): (r: Buckets)
    ensures m.Valid() ==> r.Valid()
  {
    Stored(l, m, key, Spent(Refilled(l, m, key, now)))
  }

  function Answer(l: Limit, m: Buckets, key: string, now: int): Decision
    requires l.perMinute > 0.0
  {
    Decide(l, Refilled(l, m, key, now))
  }

  // ---------------------------------------------------------------------
  // Keys and eviction
  // ---------------------------------------------------------------------

  lemma {:induction false} NewestSurvives(m: Buckets, cap: nat)
    requires m.Valid() && m.keys != [] && cap >= 1
    ensures m.EvictTo(cap).keys != [] && m.EvictTo(cap).keys[|m.EvictTo(cap).keys| - 1] == m.keys[|m.keys| - 1]
    decreases |m.keys|
  {
    if |m.keys| > cap { NewestSurvives(m.DropOldest(), cap); }
  }

  /** After a take, its key has the spent bucket, any other key present has the bucket it had, and at most
      `maxKeys` keys are held. */
  lemma TakeOutcome(l: Limit, m: Buckets, key: string, now: int)
    requires m.Valid() && l.maxKeys >= 1
    ensures
      var r := Taken(l, m, key, now);
      && |r.keys| <= l.maxKeys
      && key in r.at && r.at[key] == Spent(Refilled(l, m, key, now))
      && forall k :: k in r.at && k != key ==> k in m.at && r.at[k] == m.at[k]
  {
    var s := m.Remove(key).Set(key, Spent(Refilled(l, m, key, now)));
    EvictionKeeps(s, l.maxKeys);
    NewestSurvives(s, l.maxKeys);
    var r := s.EvictTo(l.maxKeys);
    assert r.keys[|r.keys| - 1] in r.keys;
  }

  // ---------------------------------------------------------------------
  // How much an interval admits
  // ---------------------------------------------------------------------

  datatype Request = Request(key: string, now: int)

  function After(l: Limit, rs: seq<Request>): (m: Buckets)
    ensures m.Valid()
  {
    if rs == [] then EmptyMap() else Taken(l, After(l, rs[..|rs| - 1]), rs[|rs| - 1].key, rs[|rs| - 1].now)
  }

  /** How many of `key`'s requests since `from` were answered Ok. */
  function Admitted(l: Limit, rs: seq<Request>, key: string, from: int): nat
    requires l.perMinute > 0.0
  {
    if rs == [] then 0
    else
      var r := rs[|rs| - 1];
      Admitted(l, rs[..|rs| - 1], key, from)
        + (if r.key == key && r.now >= from && Answer(l, After(l, rs[..|rs| - 1]), key, r.now) == Ok then 1 else 0)
  }

  ghost predicate Clocked(rs: seq<Request>, until: int) {
    rs == [] || (rs[|rs| - 1].now <= until && Clocked(rs[..|rs| - 1], rs[|rs| - 1].now))
  }

  /** Once seen, `key` is never evicted. */
  ghost predicate Unevicted(l: Limit, rs: seq<Request>, key: string) {
    rs == [] || (
      && Unevicted(l, rs[..|rs| - 1], key)
      && (key in After(l, rs[..|rs| - 1]).at ==> key in After(l, rs).at))
  }

  /** Requests admitted since `from` plus tokens left never exceed a full bucket plus what has flowed in. */
  ghost predicate Budgeted(l: Limit, had: Option<Bucket>, a: nat, from: int, now: int) {
    match had
    case None => a == 0
    case Some(b) =>
      && b.updatedAt <= now && 0.0 <= b.tokens <= l.perMinute
      && (b.updatedAt < from ==> a == 0)
      && (b.updatedAt >= from ==> a as real + b.tokens <= l.perMinute + Inflow(l, from, b.updatedAt))
  }

  lemma InflowAdds(l: Limit, a: int, b: int, c: int)
    ensures Inflow(l, a, b) + Inflow(l, b, c) == Inflow(l, a, c)
  {
  }

  lemma InflowGrows(l: Limit, a: int, b: int)
    requires l.perMinute > 0.0 && a <= b
    ensures Inflow(l, a, b) >= 0.0
  {
  }

  /** The arithmetic of one take: `before` and `after` are the inflow since the interval began, `gap` the
      inflow since the last take. */
  lemma TakeArithmetic(full: real, had: real, a: nat, before: real, gap: real, after: real)
    requires full > 0.0 && 0.0 <= had <= full && gap >= 0.0 && before + gap == after
    requires a as real + had <= full + before
    ensures
      var level := Min(full, had + gap);
      && 0.0 <= level <= full && a as real + level <= full + after
      && (level >= 1.0 ==> 0.0 <= level - 1.0 && (a + 1) as real + (level - 1.0) <= full + after)
  {
  }

  lemma TakeBudget(l: Limit, had: Option<Bucket>, a: nat, from: int, last: int, now: int)
    requires l.perMinute > 0.0 && last <= now && Budgeted(l, had, a, from, last)
    ensures Budgeted(l, Some(Spent(Refill(l, had, now))), if now >= from && Decide(l, Refill(l, had, now)) == Ok then a + 1 else a, from, now)
  {
    match had
    case None =>
      if now >= from { InflowGrows(l, from, now); }
    case Some(b) =>
      var gap := Inflow(l, b.updatedAt, now);
      InflowGrows(l, b.updatedAt, now);
      if b.updatedAt >= from {
        InflowAdds(l, from, b.updatedAt, now);
        TakeArithmetic(l.perMinute, b.tokens, a, Inflow(l, from, b.updatedAt), gap, Inflow(l, from, now));
      } else if now >= from {
        InflowGrows(l, from, now);
      }
  }

  lemma GetAfterTake(l: Limit, m: Buckets, key: string, taken: string, now: int)
    requires m.Valid() && l.maxKeys >= 1 && (key in m.at ==> key in Taken(l, m, taken, now).at)
    ensures Taken(l, m, taken, now).Get(key) == if taken == key then Some(Spent(Refilled(l, m, key, now))) else m.Get(key)
  {
    TakeOutcome(l, m, taken, now);
  }

  lemma LaterBudget(l: Limit, had: Option<Bucket>, a: nat, from: int, now: int, later: int)
    requires Budgeted(l, had, a, from, now) && now <= later
    ensures Budgeted(l, had, a, from, later)
  {
  }

  lemma {:induction false} RunBudget(l: Limit, rs: seq<Request>, key: string, from: int, until: int)
    requires l.perMinute > 0.0 && l.maxKeys >= 1 && Clocked(rs, until) && Unevicted(l, rs, key)
    ensures Budgeted(l, After(l, rs).Get(key), Admitted(l, rs, key, from), from, until)
  {
    if rs != [] {
      var n := |rs| - 1;
      var r, m := rs[n], After(l, rs[..n]);
      RunBudget(l, rs[..n], key, from, r.now);
      GetAfterTake(l, m, key, r.key, r.now);
      if r.key == key { TakeBudget(l, m.Get(key), Admitted(l, rs[..n], key, from), from, r.now, r.now); }
      LaterBudget(l, After(l, rs).Get(key), Admitted(l, rs, key, from), from, r.now, until);
    }
  }

  lemma BudgetBound(l: Limit, had: Option<Bucket>, a: nat, from: int, until: int)
    requires l.perMinute > 0.0 && from <= until && Budgeted(l, had, a, from, until)
    ensures a as real <= l.perMinute + Inflow(l, from, until)
  {
    InflowGrows(l, from, until);
    if had.Some? && had.value.updatedAt >= from {
      InflowAdds(l, from, had.value.updatedAt, until);
      InflowGrows(l, had.value.updatedAt, until);
    }
  }

  /** In any T milliseconds, an unevicted key is admitted at most perMinute + T * perMinute / 60000 requests. */
  lemma AdmissionsAreBounded(l: Limit, rs: seq<Request>, key: string, from: int, until: int)
    requires l.perMinute > 0.0 && l.maxKeys >= 1 && from <= until && Clocked(rs, until) && Unevicted(l, rs, key)
    ensures Admitted(l, rs, key, from) as real <= l.perMinute + Inflow(l, from, until)
  {
    RunBudget(l, rs, key, from, until);
    BudgetBound(l, After(l, rs).Get(key), Admitted(l, rs, key, from), from, until);
  }

  // ---------------------------------------------------------------------
  // Retry-after
  // ---------------------------------------------------------------------

  lemma Scale(x: real, r: real, n: int)
    requires r > 0.0 && n as real >= x / r / 1000.0
    ensures (n * 1000) as real * r >= x
  {
    var y := x / r;
    assert y == (y / 1000.0) * 1000.0;
    assert (n * 1000) as real == n as real * 1000.0 >= y;
    assert y * r == x;
    MulOrder((n * 1000) as real, y, r);
  }

  lemma MulOrder(a: real, b: real, r: real)
    requires a >= b && r > 0.0
    ensures a * r >= b * r
  {
  }

  lemma CeilingAbove(x: real)
    ensures Ceiling(x) as real >= x
  {
  }

  /** A refused client that waits as told, its bucket untouched meanwhile, has the tokens it was short of. */
  lemma WaitRefills(l: Limit, b: Bucket, wait: int)
    requires l.perMinute > 0.0 && b.tokens < 1.0 && Decide(l, b) == Wait(wait)
    ensures b.tokens + Inflow(l, b.updatedAt, b.updatedAt + wait * 1000) >= 1.0
  {
    var x, r := 1.0 - b.tokens, l.PerMs();
    CeilingAbove(x / r / 1000.0);
    Scale(x, r, wait);
    assert b.updatedAt + wait * 1000 - b.updatedAt == wait * 1000;
  }

  lemma RetryDecision(l: Limit, b: Bucket, wait: int)
    requires l.perMinute > 0.0 && Decide(l, b) == Wait(wait)
    ensures Decide(l, Refill(l, Some(b), b.updatedAt + wait * 1000)) == Ok <==> l.perMinute >= 1.0
  {
    WaitRefills(l, b, wait);
  }

  lemma RetryAnswer(l: Limit, m: Buckets, key: string, b: Bucket, wait: int)
    requires l.perMinute > 0.0 && m.Get(key) == Some(b) && Decide(l, b) == Wait(wait)
    ensures Answer(l, m, key, b.updatedAt + wait * 1000) == Ok <==> l.perMinute >= 1.0
  {
    RetryDecision(l, b, wait);
  }

  /** The advertised wait is enough exactly when the limit allows a whole request per minute: then a retry after
      it is admitted, and otherwise no request ever is. `b` is the refilled bucket the refusal looked at. */
  lemma RetryAfterSuffices(l: Limit, m: Buckets, key: string, wait: int, b: Bucket)
    requires l.perMinute > 0.0 && l.maxKeys >= 1 && m.Valid()
    requires b == Refilled(l, m, key, b.updatedAt) && Answer(l, m, key, b.updatedAt) == Wait(wait)
    ensures Answer(l, Taken(l, m, key, b.updatedAt), key, b.updatedAt + wait * 1000) == Ok <==> l.perMinute >= 1.0
  {
    RefusedKeeps(l, m, key, b.updatedAt);
    RetryAnswer(l, Taken(l, m, key, b.updatedAt), key, b, wait);
  }

  lemma RefusedKeeps(l: Limit, m: Buckets, key: string, now: int)
    requires l.perMinute > 0.0 && l.maxKeys >= 1 && m.Valid() && Answer(l, m, key, now) != Ok
    ensures Taken(l, m, key, now).Get(key) == Some(Refilled(l, m, key, now)) && Refilled(l, m, key, now).updatedAt == now
  {
    TakeOutcome(l, m, key, now);
  }

  /** Below one token per minute nothing is ever admitted, however long the wait. */
  lemma NothingBelowOne(l: Limit, m: Buckets, key: string, now: int)
    requires 0.0 < l.perMinute < 1.0
    ensures Answer(l, m, key, now) != Ok
  {
    assert Refilled(l, m, key, now).tokens <= l.perMinute;
  }

  // ---------------------------------------------------------------------
  // What is admitted
  // ---------------------------------------------------------------------

  /** `n` requests of `key` at one instant. */
  function Burst(l: Limit, m: Buckets, key: string, now: int, n: nat): (r: Buckets)
    ensures m.Valid() ==> r.Valid()
  {
    if n == 0 then m else Taken(l, Burst(l, m, key, now, n - 1), key, now)
  }

  ghost predicate LeftAfter(full: real, n: nat, left: real) {
    if n as real <= full then left == full - n as real else 0.0 <= left < 1.0
  }

  lemma NoInflow(l: Limit, now: int)
    ensures Inflow(l, now, now) == 0.0
  {
  }

  lemma RefillAtOnce(l: Limit, b: Bucket)
    requires b.tokens <= l.perMinute
    ensures Refill(l, Some(b), b.updatedAt) == b
  {
    hide Inflow;
    NoInflow(l, b.updatedAt);
  }

  lemma RefilledAtOnce(l: Limit, m: Buckets, key: string, now: int)
    requires l.maxKeys >= 1 && m.Valid() && Refilled(l, m, key, now).tokens <= l.perMinute
    ensures Refilled(l, Taken(l, m, key, now), key, now) == Spent(Refilled(l, m, key, now))
  {
    hide Taken, Inflow;
    TakeOutcome(l, m, key, now);
    RefillAtOnce(l, Spent(Refilled(l, m, key, now)));
  }

  lemma OneMoreSpent(full: real, n: nat, b: Bucket)
    requires full >= 0.0 && LeftAfter(full, n, b.tokens)
    ensures LeftAfter(full, n + 1, Spent(b).tokens) && Spent(b).tokens <= b.tokens
  {
  }

  lemma {:induction false} BurstLeaves(l: Limit, m: Buckets, key: string, now: int, n: nat)
    requires l.maxKeys >= 1 && m.Valid() && 0.0 <= Refilled(l, m, key, now).tokens <= l.perMinute
    ensures
      var full, left := Refilled(l, m, key, now).tokens, Refilled(l, Burst(l, m, key, now, n), key, now).tokens;
      LeftAfter(full, n, left) && left <= l.perMinute
  {
    hide Refilled, Taken, LeftAfter;
    if n > 0 {
      BurstLeaves(l, m, key, now, n - 1);
      RefilledAtOnce(l, Burst(l, m, key, now, n - 1), key, now);
      OneMoreSpent(Refilled(l, m, key, now).tokens, n - 1, Refilled(l, Burst(l, m, key, now, n - 1), key, now));
    } else {
      NothingSpent(Refilled(l, m, key, now).tokens);
    }
  }

  lemma NothingSpent(full: real)
    requires full >= 0.0
    ensures LeftAfter(full, 0, full)
  {
  }

  lemma WholeTokens(full: real, n: nat, left: real)
    requires LeftAfter(full, n, left)
    ensures left >= 1.0 <==> (n + 1) as real <= full
  {
  }

  lemma StartingLevel(l: Limit, m: Buckets, key: string, now: int)
    requires l.perMinute > 0.0 && (key in m.at ==> m.at[key].updatedAt <= now && 0.0 <= m.at[key].tokens)
    ensures
      var had := if key in m.at then m.at[key].tokens + (now - m.at[key].updatedAt) as real * (l.perMinute / 60000.0) else l.perMinute;
      0.0 <= Refilled(l, m, key, now).tokens == (if had <= l.perMinute then had else l.perMinute)
  {
    if key in m.at { InflowGrows(l, m.at[key].updatedAt, now); }
  }

  /** Of a burst of requests at one instant, exactly as many are admitted as whole tokens are there: a client never seen
      starts with `perMinute`, another has what it was left with plus what has flowed in since, up to `perMinute`. */
  lemma BurstAdmitsWholeTokens(l: Limit, m: Buckets, key: string, now: int, n: nat)
    requires l.perMinute > 0.0 && l.maxKeys >= 1 && m.Valid()
    requires key in m.at ==> m.at[key].updatedAt <= now && 0.0 <= m.at[key].tokens
    ensures
      var had := if key in m.at then m.at[key].tokens + (now - m.at[key].updatedAt) as real * (l.perMinute / 60000.0) else l.perMinute;
      Answer(l, Burst(l, m, key, now, n), key, now) == Ok <==> (n + 1) as real <= (if had <= l.perMinute then had else l.perMinute)
  {
    hide Inflow, Burst, LeftAfter;
    StartingLevel(l, m, key, now);
    BurstLeaves(l, m, key, now, n);
    WholeTokens(Refilled(l, m, key, now).tokens, n, Refilled(l, Burst(l, m, key, now, n), key, now).tokens);
  }

  // ---------------------------------------------------------------------
  // The object
  // ---------------------------------------------------------------------

  class TokenBucket {
    var buckets: Buckets
    const limit: Limit

    constructor (limit: Limit)
      ensures this.limit == limit && buckets == EmptyMap()
    {
      this.limit := limit;
      buckets := EmptyMap();
    }

    method Take(key: string, now: int) returns (d: Decision)
      requires limit.perMinute > 0.0 && buckets.Valid()
      modifies this
      ensures buckets.Valid()
      ensures d == Answer(limit, old(buckets), key, now)
      ensures buckets == Taken(limit, old(buckets), key, now)
    {
      var b := Refilled(limit, buckets, key, now);
      d := Decide(limit, b);
      b := Spent(b);
      buckets := buckets.Remove(key).Set(key, b);
      EvictOldest();
    }

    method EvictOldest()
      requires buckets.Valid()
      modifies this
      ensures buckets.Valid() && buckets == old(buckets).EvictTo(limit.maxKeys)
    {
      while |buckets.keys| > limit.maxKeys
        invariant buckets.Valid()
        invariant buckets.EvictTo(limit.maxKeys) == old(buckets).EvictTo(limit.maxKeys)
        decreases |buckets.keys|
      {
        buckets := buckets.DropOldest();
      }
    }
  }
}
