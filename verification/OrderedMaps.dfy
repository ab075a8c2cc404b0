/** Insertion-ordered maps: the JavaScript `Map` and the Python `dict` that most of
    Ekho's in-memory state is made of.

    A map is its key sequence, oldest insertion first, together with the values.
    `Set` on a present key keeps that key's position; `Remove` followed by `Set`
    moves it to the young end; `EvictTo` drops from the old end. */
module OrderedMaps {

  datatype Option<+T> = None | Some(value: T)

  predicate NoDup<T(==)>(s: seq<T>) {
    s == [] || (s[|s| - 1] !in s[..|s| - 1] && NoDup(s[..|s| - 1]))
  }

  /** The same said by counting. */
  lemma {:induction false} NoDupCounts<T(!new)>(s: seq<T>)
    ensures NoDup(s) <==> forall x :: x in s ==> multiset(s)[x] == 1
  {
    if s != [] {
      var n := |s| - 1;
      var init, last := s[..n], s[n];
      assert s == init + [last];
      NoDupCounts(init);
      if last in init {
        assert multiset(init)[last] >= 1;
        assert multiset(s)[last] >= 2;
      } else {
        assert forall x :: x in init ==> multiset(s)[x] == multiset(init)[x];
      }
    }
  }

  /** The same said pointwise. */
  lemma {:induction false} NoDupPointwise<T(!new)>(s: seq<T>, i: nat, j: nat)
    requires NoDup(s) && i < j < |s|
    ensures s[i] != s[j]
  {
    var n := |s| - 1;
    if j == n {
      assert s[i] == s[..n][i];
    } else {
      NoDupPointwise(s[..n], i, j);
    }
  }

  lemma {:induction false} NoDupSuffix<T(!new)>(s: seq<T>, n: nat)
    requires NoDup(s) && n <= |s|
    ensures NoDup(s[n..])
  {
    if n < |s| {
      var m := |s| - 1;
      NoDupSuffix(s[..m], n);
      assert s[n..][..m - n] == s[..m][n..];
      assert s[m] !in s[..m];
      assert forall x :: x in s[..m][n..] ==> x in s[..m];
    }
  }

  /** `s` without any occurrence of `x`, order kept. */
  function Without<T(==,!new)>(s: seq<T>, x: T): (r: seq<T>)
    ensures forall y :: y in r <==> y in s && y != x
    ensures |r| <= |s|
    ensures x !in s ==> r == s
  {
    if s == [] then []
    else
      var n := |s| - 1;
      assert s == s[..n] + [s[n]];
      if s[n] == x then Without(s[..n], x) else Without(s[..n], x) + [s[n]]
  }

  lemma {:induction false} WithoutNoDup<T(!new)>(s: seq<T>, x: T)
    requires NoDup(s)
    ensures NoDup(Without(s, x))
    ensures x in s ==> |Without(s, x)| == |s| - 1
  {
    if s != [] {
      var n := |s| - 1;
      var init, last := s[..n], s[n];
      assert s == init + [last];
      WithoutNoDup(init, x);
      var w := Without(init, x);
      if last == x {
        assert Without(s, x) == w == init;
      } else {
        assert Without(s, x) == w + [last];
        assert (w + [last])[..|w|] == w;
      }
    }
  }

  /** `known`, followed by the elements of `more` not seen before, each once, in order of first occurrence. */
  function Union<T(==,!new)>(known: seq<T>, more: seq<T>): (u: seq<T>)
    ensures known <= u
    ensures forall x :: x in u <==> x in known || x in more
    ensures NoDup(known) ==> NoDup(u)
  {
    if more == [] then known
    else
      var n := |more| - 1;
      var u := Union(known, more[..n]);
      assert more == more[..n] + [more[n]];
      assert (u + [more[n]])[..|u|] == u;
      if more[n] in u then u else u + [more[n]]
  }

  /** Absorbing into `known` loses nothing it held and adds nothing the incoming sequence does not. */
  lemma {:induction false} UnionCounts<T(!new)>(known: seq<T>, more: seq<T>)
    ensures multiset(known) <= multiset(Union(known, more))
    ensures multiset(Union(known, more)) <= multiset(known) + multiset(more)
  {
    if more != [] {
      var n := |more| - 1;
      UnionCounts(known, more[..n]);
      assert more == more[..n] + [more[n]];
    }
  }

  lemma UnionMembers<T(!new)>(known: seq<T>, more: seq<T>)
    ensures forall x :: x in multiset(known) || x in multiset(more) <==> x in multiset(Union(known, more))
  {
    var u := Union(known, more);
    assert forall x :: x in multiset(u) <==> x in u;
  }

  /** The youngest `cap` elements. */
  function Newest<T>(s: seq<T>, cap: nat): (r: seq<T>)
    ensures |r| <= cap && |r| <= |s| && r == s[|s| - |r|..]
  {
    if |s| <= cap then s else s[|s| - cap..]
  }

  datatype OMap<K(==,!new), V> = OMap(keys: seq<K>, at: map<K, V>) {

    ghost predicate Valid() {
      && NoDup(keys)
      && (forall k :: k in keys <==> k in at)
    }

    function Get(k: K): Option<V> {
      if k in at then Some(at[k]) else None
    }

    function Set(k: K, v: V): (r: OMap<K, V>)
      ensures Valid() ==> r.Valid()
    {
      assert (keys + [k])[..|keys|] == keys;
      OMap(if k in at then keys else keys + [k], at[k := v])
    }

    function Remove(k: K): (r: OMap<K, V>)
      ensures Valid() ==> r.Valid()
    {
      WithoutKeepsValid(k);
      OMap(Without(keys, k), at - {k})
    }

    lemma WithoutKeepsValid(k: K)
      ensures Valid() ==> OMap(Without(keys, k), at - {k}).Valid()
    {
      if Valid() { WithoutNoDup(keys, k); }
    }

    function DropOldest(): (r: OMap<K, V>)
      requires keys != []
      ensures Valid() ==> r.Valid()
    {
      if NoDup(keys) then
        NoDupSuffix(keys, 1);
        OldestOnce(keys);
        OMap(keys[1..], at - {keys[0]})
      else OMap(keys[1..], at - {keys[0]})
    }

    /** Drop the oldest keys until at most `cap` are left. */
    function EvictTo(cap: nat): (r: OMap<K, V>)
      ensures Valid() ==> r.Valid()
      ensures |r.keys| <= cap
      ensures |keys| <= cap ==> r == this
      ensures |keys| == cap + 1 ==> r == DropOldest()
      decreases |keys|
    {
      if |keys| <= cap then this else DropOldest().EvictTo(cap)
    }
  }

  lemma {:induction false} OldestOnce<T(!new)>(s: seq<T>)
    requires s != [] && NoDup(s)
    ensures s[0] !in s[1..]
  {
    if |s| > 1 {
      var n := |s| - 1;
      OldestOnce(s[..n]);
      assert s == s[..n] + [s[n]];
      assert s[1..] == s[..n][1..] + [s[n]];
    }
  }

  /** Eviction drops keys and changes no value. */
  lemma {:induction false} EvictionKeeps<K(!new), V>(m: OMap<K, V>, cap: nat)
    requires m.Valid()
    ensures forall k :: k in m.EvictTo(cap).at ==> k in m.at && m.EvictTo(cap).at[k] == m.at[k]
    decreases |m.keys|
  {
    if |m.keys| > cap { EvictionKeeps(m.DropOldest(), cap); }
  }

  function EmptyMap<K(!new), V>(): (r: OMap<K, V>)
    ensures r.Valid()
  {
    OMap([], map[])
  }
}
