/** Counting in fixed windows: a window opens with the first counted event after the last one expired, and
    at most `max` events are counted in it. Three limiters of the system count this way. */
module FixedWindow {
  import opened OrderedMaps

  /** `late`: a window is still open at exactly its full length (it expires strictly after it). */
  datatype Rule = Rule(max: nat, length: int, late: bool)

  datatype Window = Window(count: nat, start: int)

  predicate Expired(r: Rule, w: Window, now: int) {
    if r.late then now - w.start > r.length else now - w.start >= r.length
  }

  predicate Open(r: Rule, w: Option<Window>, now: int) {
    w.Some? && !Expired(r, w.value, now)
  }

  predicate Blocked(r: Rule, w: Option<Window>, now: int) {
    Open(r, w, now) && w.value.count >= r.max
  }

  function Counted(r: Rule, w: Option<Window>, now: int): Window {
    if Open(r, w, now) then Window(w.value.count + 1, w.value.start) else Window(1, now)
  }

  function Hit(r: Rule, w: Option<Window>, now: int): Option<Window> {
    if Blocked(r, w, now) then w else Some(Counted(r, w, now))
  }

  function After(r: Rule, w: Option<Window>, times: seq<int>): Option<Window> {
    if times == [] then w else Hit(r, After(r, w, times[..|times| - 1]), times[|times| - 1])
  }

  /** How many of the attempts at `times` from `from` on were counted. */
  function Admitted(r: Rule, w: Option<Window>, times: seq<int>, from: int): nat {
    if times == [] then 0
    else
      var n := |times| - 1;
      var before := After(r, w, times[..n]);
      Admitted(r, w, times[..n], from) + (if times[n] >= from && !Blocked(r, before, times[n]) then 1 else 0)
  }

  ghost predicate Ordered(times: seq<int>) {
    forall i, j :: 0 <= i < j < |times| ==> times[i] <= times[j]
  }

  /** A window is stored only with something counted in it, and opened no later than the first attempt. */
  ghost predicate Sane(r: Rule, w: Option<Window>, times: seq<int>) {
    w.Some? ==> 1 <= w.value.count <= r.max && forall i :: 0 <= i < |times| ==> w.value.start <= times[i]
  }

  /** The most a closed interval of one window's length can count. A rule that still counts at exactly the full
      length cannot fit two whole windows: the first one's opening hit lies before the interval. */
  function Most(r: Rule): nat
    requires r.max >= 1
  {
    if r.late then 2 * r.max - 1 else 2 * r.max
  }

  /** What has been counted since `from` fits in the open window, less its opening hit if that came before
      `from`, and, if it opened after `from`, in one window before it. */
  ghost predicate Tally(r: Rule, w: Option<Window>, a: nat, from: int, last: int)
    requires r.max >= 1
  {
    && (w.None? ==> a == 0)
    && (w.Some? ==>
          && 1 <= w.value.count <= r.max && w.value.start <= last
          && (w.value.start < from ==> a <= w.value.count - 1)
          && (w.value.start == from ==> a <= w.value.count)
          && (w.value.start > from ==> a <= w.value.count + Most(r) - r.max)
          && (a > 0 && w.value.start <= from ==> !Expired(r, w.value, from)))
  }

  lemma HitTally(r: Rule, w: Option<Window>, a: nat, from: int, last: int, now: int)
    requires r.max >= 1 && r.length > 0 && Tally(r, w, a, from, last) && last <= now <= from + r.length
    ensures Tally(r, Hit(r, w, now), if now >= from && !Blocked(r, w, now) then a + 1 else a, from, now)
  {
  }

  lemma {:induction false} RunTally(r: Rule, w: Option<Window>, times: seq<int>, from: int, last: int)
    requires r.max >= 1 && r.length > 0 && Ordered(times) && Sane(r, w, times)
    requires forall i :: 0 <= i < |times| ==> times[i] <= last <= from + r.length
    requires w.Some? ==> w.value.start <= last
    ensures Tally(r, After(r, w, times), Admitted(r, w, times, from), from, if times == [] then last else times[|times| - 1])
  {
    if times != [] {
      var n := |times| - 1;
      RunTally(r, w, times[..n], from, times[n]);
      var before := After(r, w, times[..n]);
      HitTally(r, before, Admitted(r, w, times[..n], from), from, if n == 0 then times[n] else times[n - 1], times[n]);
    }
  }

  /** In any closed interval of one window's length, wherever the windows fall, at most twice the limit is
      counted; one less under a rule that still counts at exactly the full length. */
  lemma AtMostTwice(r: Rule, w: Option<Window>, times: seq<int>, from: int)
    requires r.max >= 1 && r.length > 0 && Ordered(times) && Sane(r, w, times)
    requires forall i :: 0 <= i < |times| ==> times[i] <= from + r.length
    ensures Admitted(r, w, times, from) <= Most(r)
  {
    if times != [] {
      RunTally(r, w, times, from, times[|times| - 1]);
    }
  }

  // ---------------------------------------------------------------------
  // The bound is met, and when a rolling limit is
  // ---------------------------------------------------------------------

  /** `n` attempts at `t`. */
  function Burst(t: int, n: nat): (ts: seq<int>)
    ensures |ts| == n && forall i :: 0 <= i < n ==> ts[i] == t
  {
    seq(n, i => t)
  }

  lemma OneMore(r: Rule, w: Option<Window>, times: seq<int>, t: int, from: int)
    ensures After(r, w, times + [t]) == Hit(r, After(r, w, times), t)
    ensures Admitted(r, w, times + [t], from)
         == Admitted(r, w, times, from) + (if t >= from && !Blocked(r, After(r, w, times), t) then 1 else 0)
  {
    assert (times + [t])[..|times|] == times;
  }

  /** A burst that the window at `t` has room for is counted whole. */
  lemma {:induction false} BurstCounts(r: Rule, w: Option<Window>, times: seq<int>, t: int, n: nat, from: int)
    requires r.length > 0 && n >= 1
    requires var before := After(r, w, times); (if Open(r, before, t) then before.value.count else 0) + n <= r.max
    ensures
      var before := After(r, w, times);
      After(r, w, times + Burst(t, n)) == Some(if Open(r, before, t) then Window(before.value.count + n, before.value.start) else Window(n, t))
    ensures Admitted(r, w, times + Burst(t, n), from) == Admitted(r, w, times, from) + (if t >= from then n else 0)
  {
    var m := n - 1;
    assert times + Burst(t, n) == (times + Burst(t, m)) + [t];
    OneMore(r, w, times + Burst(t, m), t, from);
    if m > 0 { BurstCounts(r, w, times, t, m, from); } else { assert times + Burst(t, 0) == times; }
  }

  /** A run that fills two windows inside one interval: hits at 0, then up to the limit, then a new window. */
  function Filling(r: Rule): seq<int>
    requires r.max >= 1
  {
    if r.late then [0] + Burst(r.length, r.max - 1) + Burst(r.length + 1, r.max)
    else Burst(0, r.max) + Burst(r.length, r.max)
  }

  lemma LateFilling(r: Rule)
    requires r.max >= 1 && r.length > 0 && r.late
    ensures Admitted(r, None, Filling(r), r.length) == 2 * r.max - 1
  {
    var l := r.length;
    var opening, full := [0], [0] + Burst(l, r.max - 1);
    assert After(r, None, opening) == Some(Window(1, 0)) && Admitted(r, None, opening, l) == 0 by {
      assert opening == [] + [0];
      OneMore(r, None, [], 0, l);
    }
    if r.max > 1 { BurstCounts(r, None, opening, l, r.max - 1, l); } else { assert full == opening; }
    BurstCounts(r, None, full, l + 1, r.max, l);
  }

  lemma PromptFilling(r: Rule)
    requires r.max >= 1 && r.length > 0 && !r.late
    ensures Admitted(r, None, Filling(r), 0) == 2 * r.max
  {
    var full := Burst(0, r.max);
    assert [] + full == full;
    BurstCounts(r, None, [], 0, r.max, 0);
    BurstCounts(r, None, full, r.length, r.max, 0);
  }

  /** Every attempt of that run is counted. */
  lemma FillingIsCounted(r: Rule)
    requires r.max >= 1 && r.length > 0
    ensures Admitted(r, None, Filling(r), 0) == |Filling(r)| == 2 * r.max
  {
    if r.late { LateFillingIsCounted(r); } else { PromptFilling(r); }
  }

  lemma LateFillingIsCounted(r: Rule)
    requires r.max >= 1 && r.length > 0 && r.late
    ensures Admitted(r, None, Filling(r), 0) == |Filling(r)| == 2 * r.max
  {
    var l := r.length;
    var opening, full := [0], [0] + Burst(l, r.max - 1);
    assert opening == [] + [0];
    OneMore(r, None, [], 0, 0);
    if r.max > 1 { BurstCounts(r, None, opening, l, r.max - 1, 0); } else { assert full == opening; }
    BurstCounts(r, None, full, l + 1, r.max, 0);
  }

  /** The bound is met, from nothing counted, by every rule: no smaller number would do. */
  lemma BoundIsReached(r: Rule) returns (from: int)
    requires r.max >= 1 && r.length > 0
    ensures Ordered(Filling(r)) && forall i :: 0 <= i < |Filling(r)| ==> 0 <= Filling(r)[i] <= from + r.length
    ensures Admitted(r, None, Filling(r), from) == Most(r)
  {
    from := if r.late then r.length else 0;
    if r.late { LateFilling(r); } else { PromptFilling(r); }
  }

  /** Attempts in order inside the closed interval of one window's length that starts at `from`. */
  ghost predicate Inside(r: Rule, times: seq<int>, from: int) {
    Ordered(times) && forall i :: 0 <= i < |times| ==> from <= times[i] <= from + r.length
  }

  /** The rolling limit can be broken in the interval that starts at `from`, given the window stored then. */
  ghost predicate CanExceed(r: Rule, w: Option<Window>, from: int) {
    exists times :: Inside(r, times, from) && Admitted(r, w, times, from) > r.max
  }

  /** What the stored window at `from` says about it. */
  predicate Exposed(r: Rule, w: Option<Window>, from: int) {
    if r.late then Open(r, w, from) && w.value.start < from && w.value.count < r.max else !Blocked(r, w, from)
  }

  /** From a window that is not exposed, everything counted in the interval is counted in one window. */
  ghost predicate Capped(r: Rule, w: Option<Window>, a: nat, from: int) {
    if w.Some? && (if r.late then w.value.start >= from else w.value.start > from) then a <= w.value.count <= r.max
    else a == 0 && !Exposed(r, w, from) && (w.Some? ==> w.value.count <= r.max)
  }

  lemma HitCapped(r: Rule, w: Option<Window>, a: nat, from: int, now: int)
    requires r.max >= 1 && r.length > 0 && Capped(r, w, a, from) && from <= now <= from + r.length
    ensures Capped(r, Hit(r, w, now), if Blocked(r, w, now) then a else a + 1, from)
  {
  }

  lemma {:induction false} RunCapped(r: Rule, w: Option<Window>, times: seq<int>, from: int)
    requires r.max >= 1 && r.length > 0 && Inside(r, times, from) && Capped(r, w, 0, from)
    ensures Capped(r, After(r, w, times), Admitted(r, w, times, from), from)
  {
    if times != [] {
      var n := |times| - 1;
      RunCapped(r, w, times[..n], from);
      HitCapped(r, After(r, w, times[..n]), Admitted(r, w, times[..n], from), from, times[n]);
    }
  }

  /** One hit in a window about to lapse, then a full one. */
  lemma ExposedIsExceeded(r: Rule, w: Option<Window>, from: int)
    requires r.max >= 1 && r.length > 0 && Sane(r, w, [from]) && Exposed(r, w, from)
    ensures CanExceed(r, w, from)
  {
    var later := if !Open(r, w, from) then from + r.length else if r.late then w.value.start + r.length + 1 else w.value.start + r.length;
    var first := [from];
    assert w.Some? ==> w.value.start <= first[0];
    assert first == [] + [from];
    OneMore(r, w, [], from, from);
    BurstCounts(r, w, first, later, r.max, from);
    assert Inside(r, first + Burst(later, r.max), from);
  }

  /** A fixed window keeps the rolling limit over the interval that starts at `from`, however attempts arrive in
      it, if and only if the window stored then is not exposed: for a rule that still counts at exactly the full
      length, an open window from before `from` with room left; for one that does not, anything but a full one. */
  lemma RollingLimitIff(r: Rule, w: Option<Window>, from: int)
    requires r.max >= 1 && r.length > 0 && Sane(r, w, [from])
    ensures CanExceed(r, w, from) <==> Exposed(r, w, from)
  {
    if Exposed(r, w, from) {
      ExposedIsExceeded(r, w, from);
    } else {
      assert w.Some? ==> w.value.start <= [from][0];
      forall times | Inside(r, times, from) ensures Admitted(r, w, times, from) <= r.max {
        RunCapped(r, w, times, from);
      }
    }
  }

  /** Every one of these attempts was let through by its window. */
  ghost predicate AllCounted(r: Rule, ts: seq<int>) {
    ts == [] || (AllCounted(r, ts[..|ts| - 1]) && !Blocked(r, After(r, None, ts[..|ts| - 1]), ts[|ts| - 1]))
  }

  function CountFrom(ts: seq<int>, from: int): nat {
    if ts == [] then 0 else CountFrom(ts[..|ts| - 1], from) + (if ts[|ts| - 1] >= from then 1 else 0)
  }

  lemma {:induction false} CountedAreAdmitted(r: Rule, ts: seq<int>, from: int)
    requires AllCounted(r, ts)
    ensures Admitted(r, None, ts, from) == CountFrom(ts, from)
  {
    if ts != [] { CountedAreAdmitted(r, ts[..|ts| - 1], from); }
  }

  /** If as many were counted as there were attempts, each was. */
  lemma {:induction false} AllAdmitted(r: Rule, ts: seq<int>, from: int)
    ensures Admitted(r, None, ts, from) <= |ts|
    ensures Admitted(r, None, ts, from) == |ts| ==> AllCounted(r, ts)
  {
    if ts != [] { AllAdmitted(r, ts[..|ts| - 1], from); }
  }

  // ---------------------------------------------------------------------
  // One window per key
  // ---------------------------------------------------------------------

  datatype Attempt = Attempt(key: string, now: int)

  type Windows = map<string, Window>

  function Of(m: Windows, key: string): Option<Window> {
    if key in m then Some(m[key]) else None
  }

  function KeyedHit(r: Rule, m: Windows, a: Attempt): Windows {
    if Blocked(r, Of(m, a.key), a.now) then m else m[a.key := Counted(r, Of(m, a.key), a.now)]
  }

  function KeyedAfter(r: Rule, m: Windows, atts: seq<Attempt>): Windows {
    if atts == [] then m else KeyedHit(r, KeyedAfter(r, m, atts[..|atts| - 1]), atts[|atts| - 1])
  }

  function TimesOf(atts: seq<Attempt>, key: string): seq<int> {
    if atts == [] then []
    else TimesOf(atts[..|atts| - 1], key) + (if atts[|atts| - 1].key == key then [atts[|atts| - 1].now] else [])
  }

  function KeyedAdmitted(r: Rule, m: Windows, atts: seq<Attempt>, key: string, from: int): nat {
    if atts == [] then 0
    else
      var n := |atts| - 1;
      var a, before := atts[n], KeyedAfter(r, m, atts[..n]);
      KeyedAdmitted(r, m, atts[..n], key, from)
        + (if a.key == key && a.now >= from && !Blocked(r, Of(before, key), a.now) then 1 else 0)
  }

  /** Over `atts`, `key` is limited as it would be by its own attempts. */
  ghost predicate OnItsOwn(r: Rule, m: Windows, atts: seq<Attempt>, key: string, from: int) {
    var ts := TimesOf(atts, key);
    && Of(KeyedAfter(r, m, atts), key) == After(r, Of(m, key), ts)
    && KeyedAdmitted(r, m, atts, key, from) == Admitted(r, Of(m, key), ts, from)
  }

  lemma KeyedSnoc(r: Rule, m: Windows, atts: seq<Attempt>, a: Attempt, key: string, from: int)
    ensures KeyedAfter(r, m, atts + [a]) == KeyedHit(r, KeyedAfter(r, m, atts), a)
    ensures TimesOf(atts + [a], key) == TimesOf(atts, key) + (if a.key == key then [a.now] else [])
    ensures KeyedAdmitted(r, m, atts + [a], key, from)
         == KeyedAdmitted(r, m, atts, key, from)
            + (if a.key == key && a.now >= from && !Blocked(r, Of(KeyedAfter(r, m, atts), key), a.now) then 1 else 0)
  {
    assert (atts + [a])[..|atts|] == atts;
  }

  lemma KeyedHitOf(r: Rule, m: Windows, a: Attempt, key: string)
    ensures Of(KeyedHit(r, m, a), key) == if a.key == key then Hit(r, Of(m, key), a.now) else Of(m, key)
  {
  }

  lemma AttemptOnItsOwn(r: Rule, m: Windows, atts: seq<Attempt>, a: Attempt, key: string, from: int)
    requires OnItsOwn(r, m, atts, key, from)
    ensures OnItsOwn(r, m, atts + [a], key, from)
  {
    hide KeyedAfter, KeyedAdmitted, KeyedHit, TimesOf, After, Admitted, Hit, Blocked, Of;
    KeyedSnoc(r, m, atts, a, key, from);
    KeyedHitOf(r, KeyedAfter(r, m, atts), a, key);
    if a.key == key { OneMore(r, Of(m, key), TimesOf(atts, key), a.now, from); } else { assert TimesOf(atts, key) + [] == TimesOf(atts, key); }
  }

  /** Each key is limited on its own. */
  lemma {:induction false} KeysAreIndependent(r: Rule, m: Windows, atts: seq<Attempt>, key: string, from: int)
    ensures OnItsOwn(r, m, atts, key, from)
  {
    if atts != [] {
      var n := |atts| - 1;
      KeysAreIndependent(r, m, atts[..n], key, from);
      AttemptOnItsOwn(r, m, atts[..n], atts[n], key, from);
      assert atts[..n] + [atts[n]] == atts;
    }
  }

  ghost predicate Clocked(atts: seq<Attempt>, until: int) {
    atts == [] || (atts[|atts| - 1].now <= until && Clocked(atts[..|atts| - 1], atts[|atts| - 1].now))
  }

  ghost predicate Climbing(ts: seq<int>, until: int) {
    ts == [] || (ts[|ts| - 1] <= until && Climbing(ts[..|ts| - 1], ts[|ts| - 1]))
  }

  lemma {:induction false} ClimbingIsOrdered(ts: seq<int>, until: int)
    requires Climbing(ts, until)
    ensures Ordered(ts) && forall i :: 0 <= i < |ts| ==> ts[i] <= until
  {
    if ts != [] { ClimbingIsOrdered(ts[..|ts| - 1], ts[|ts| - 1]); }
  }

  lemma {:induction false} OrderedClimbs(ts: seq<int>, until: int)
    requires Ordered(ts) && forall i :: 0 <= i < |ts| ==> ts[i] <= until
    ensures Climbing(ts, until)
  {
    if ts != [] { OrderedClimbs(ts[..|ts| - 1], ts[|ts| - 1]); }
  }

  lemma {:induction false} ClimbingWider(ts: seq<int>, until: int, later: int)
    requires Climbing(ts, until) && until <= later
    ensures Climbing(ts, later)
  {
  }

  lemma {:induction false} TimesClimb(atts: seq<Attempt>, key: string, until: int)
    requires Clocked(atts, until)
    ensures Climbing(TimesOf(atts, key), until)
  {
    if atts != [] {
      var n := |atts| - 1;
      TimesClimb(atts[..n], key, atts[n].now);
      var ts := TimesOf(atts[..n], key);
      ClimbingWider(ts, atts[n].now, until);
      assert (ts + [atts[n].now])[..|ts|] == ts && ts + [] == ts;
    }
  }

  /** Starting empty, with a nondecreasing clock: every key keeps the bound in any closed interval of one
      window's length, whatever the other keys do. */
  lemma KeyedAtMostTwice(r: Rule, atts: seq<Attempt>, key: string, from: int)
    requires r.max >= 1 && r.length > 0 && Clocked(atts, from + r.length)
    ensures KeyedAdmitted(r, map[], atts, key, from) <= Most(r)
  {
    KeysAreIndependent(r, map[], atts, key, from);
    TimesClimb(atts, key, from + r.length);
    ClimbingIsOrdered(TimesOf(atts, key), from + r.length);
    AtMostTwice(r, None, TimesOf(atts, key), from);
  }
}
