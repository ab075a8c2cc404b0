/** The trust root over whole runs: any interleaving of inbox polls and config seeds,
    starting from an identity that never pinned a key. */
module TrustRuns {
  import opened OrderedMaps
  import opened TrustRoot

  /** One configured public key of the seed. `derive` is the key-id derivation; None is a malformed key. */
  function SeedStep(derive: PublicKey -> Option<KeyId>, t: Trust, pub: PublicKey): Trust {
    if pub == "" || derive(pub).None? then t
    else
      var kid := derive(pub).value;
      if kid in t.tombs && t.tombs[kid] != "" then t.(pins := t.pins - {kid})
      else t.(pins := t.pins[kid := pub])
  }

  function Seed(derive: PublicKey -> Option<KeyId>, pubs: seq<PublicKey>, t: Trust): Trust {
    if pubs == [] then t
    else SeedStep(derive, Seed(derive, pubs[..|pubs| - 1], t), pubs[|pubs| - 1])
  }

  datatype Event =
    | Polled(poll: Poll, entries: seq<Entry>)
    | Seeded(derive: PublicKey -> Option<KeyId>, pubs: seq<PublicKey>)

  function Next(ev: Event, t: Trust): Trust {
    match ev
    case Polled(poll, entries) => Sync(poll, entries, t)
    case Seeded(derive, pubs) => Seed(derive, pubs, t)
  }

  ghost predicate IsRun(ts: seq<Trust>, evs: seq<Event>) {
    && |ts| == |evs| + 1 && ts[0] == NeverPinned
    && forall i :: 0 <= i < |evs| ==> ts[i + 1] == Next(evs[i], ts[i])
  }

  /** The state invariant of the trust root. */
  ghost predicate Sound(t: Trust) {
    && (forall k :: k in t.tombs ==> k !in t.pins && t.tombs[k] != "")
    && (forall k :: k in t.admissions ==> k in t.pins)
    && (t.tofu ==> t.pins != map[])
  }

  // ---------------------------------------------------------------------
  // One poll
  // ---------------------------------------------------------------------

  ghost function R(poll: Poll, entries: seq<Entry>, t: Trust): set<KeyId> {
    ProvenIds(Judged(poll, t.pins, entries))
  }

  /** Some served entry for `k` carries a proven revocation. */
  ghost predicate ProvenIn(poll: Poll, pins: map<KeyId, PublicKey>, entries: seq<Entry>, k: KeyId) {
    exists e :: e in entries && e.keyId == k && Proven(poll, pins, e)
  }

  /** R, said of the served entries. */
  lemma RMeaning(poll: Poll, entries: seq<Entry>, t: Trust, k: KeyId)
    ensures k in R(poll, entries, t) <==> ProvenIn(poll, t.pins, entries, k)
  {
    var js := Judged(poll, t.pins, entries);
    IdsMeaning(js, k);
    if k in ProvenIds(js) {
      var i :| 0 <= i < |js| && js[i].Revoked? && js[i].keyId == k;
      assert entries[i] in entries && Proven(poll, t.pins, entries[i]);
    }
    if e :| e in entries && e.keyId == k && Proven(poll, t.pins, e) {
      var i :| 0 <= i < |entries| && entries[i] == e;
      assert js[i] == Judge(poll, t.pins, e) && js[i].Revoked? && js[i].keyId == k;
    }
  }

  lemma JudgedTime(poll: Poll, auth: map<KeyId, PublicKey>, e: Entry)
    ensures Judge(poll, auth, e).Revoked? ==> Judge(poll, auth, e).at != ""
  {
  }

  lemma NewTombTime(poll: Poll, entries: seq<Entry>, c: Claims, k: KeyId)
    requires k in Revocations(Judged(poll, c.pins, entries), c).tombs && k !in c.tombs
    ensures Revocations(Judged(poll, c.pins, entries), c).tombs[k] != ""
  {
    var js := Judged(poll, c.pins, entries);
    TombstoneTime(js, c, k);
    var at := Revocations(js, c).tombs[k];
    assert FirstProof(js, k, at);
    var i :| 0 <= i < |js| && js[i] == Revoked(k, at);
    JudgedTime(poll, c.pins, entries[i]);
  }

  /** The claims pass on a sound trust root: the tombstones that stand afterwards are those not
      validly un-revoked, plus every proven id but the spared last root; pins shrink by exactly
      those ids and never to nothing. */
  lemma ClaimsOutcome(poll: Poll, entries: seq<Entry>, t: Trust)
    requires Sound(t)
    ensures
      var c, P, rv := ClaimsOf(poll, entries, t), t.pins.Keys, R(poll, entries, t);
      && (!(P <= rv) || P == {} ==> Minus(c.pins, t.pins, rv) && TombsAre(poll, entries, t, c.tombs, rv))
      && (P != {} && P <= rv ==>
            exists s :: s in P && LastRoot(Judged(poll, t.pins, entries), P, s)
                     && c.pins.Keys == {s} && Minus(c.pins, t.pins, rv - {s}) && TombsAre(poll, entries, t, c.tombs, rv - {s}))
    ensures
      var c := ClaimsOf(poll, entries, t);
      && Extends(t.pins, c.pins)
      && (t.pins != map[] ==> c.pins != map[])
      && (forall k :: k in c.tombs ==> k !in c.pins && c.tombs[k] != "")
      && (forall k :: k in c.admissions ==> k in c.pins)
  {
    var js := Judged(poll, t.pins, entries);
    var cleared := ClearTombs(poll, t.pins, entries, t.tombs);
    var c0 := Claims(t.pins, cleared, t.admissions, {});
    var c := ClaimsOf(poll, entries, t);
    assert c == Revocations(js, c0);
    forall k ensures k in cleared <==> k in t.tombs && !UnrevokedBy(poll, t.pins, entries, k, t.tombs[k])
             ensures k in cleared ==> cleared[k] == t.tombs[k]
    {
      UnrevokeOutcome(poll, t.pins, entries, t.tombs, k);
    }
    RevocationOutcome(js, c0);
    forall k | k in c.tombs ensures c.tombs[k] != "" {
      if k in cleared { TombstoneTime(js, c0, k); } else { NewTombTime(poll, entries, c0, k); }
    }
    var P, rv := t.pins.Keys, R(poll, entries, t);
    if P != {} && P <= rv {
      var s :| s in P && LastRoot(js, P, s) && Removes(c0, rv - {s}, c) && c.pins.Keys == {s};
      assert s in c.pins;
      assert TombsAre(poll, entries, t, c.tombs, rv - {s});
    } else if P != {} {
      var k :| k in P && k !in rv;
      assert k in c.pins;
    }
  }

  ghost predicate TombsAre(poll: Poll, entries: seq<Entry>, t: Trust, tombs: map<KeyId, string>, added: set<KeyId>) {
    forall k :: k in tombs <==> k in added || (k in t.tombs && !UnrevokedBy(poll, t.pins, entries, k, t.tombs[k]))
  }

  /** One poll from a rooted identity. A key with a proven revocation ends tombstoned and
      unpinned even when the same list carries a valid un-revoke for it, except one spared
      last root; every other earlier pin stands with its key; nothing unproven removes trust. */
  lemma PollRevocation(poll: Poll, entries: seq<Entry>, t: Trust)
    requires Sound(t) && t.pins != map[]
    ensures forall k :: k in R(poll, entries, t) <==> ProvenIn(poll, t.pins, entries, k)
    ensures PollSettles(poll, entries, t, R(poll, entries, t))
  {
    hide PollSettles, Sync, R;
    forall k ensures k in R(poll, entries, t) <==> ProvenIn(poll, t.pins, entries, k) { RMeaning(poll, entries, t, k); }
    PollOutcome(poll, entries, t);
  }

  /** What a poll leaves, for the keys `rv` with a proven revocation. */
  ghost predicate PollSettles(poll: Poll, entries: seq<Entry>, t: Trust, rv: set<KeyId>) {
    var u, P := Sync(poll, entries, t), t.pins.Keys;
    exists spared: set<KeyId> ::
      && (if P <= rv then exists s :: spared == {s} && s in P && LastRoot(Judged(poll, t.pins, entries), P, s)
          else spared == {})
      && (forall k :: k in rv - spared ==> k in u.tombs && k !in u.pins)
      && (forall k :: k in P - (rv - spared) ==> k in u.pins && u.pins[k] == t.pins[k])
      && TombsAre(poll, entries, t, u.tombs, rv - spared)
  }

  lemma PollOutcome(poll: Poll, entries: seq<Entry>, t: Trust)
    requires Sound(t) && t.pins != map[]
    ensures PollSettles(poll, entries, t, R(poll, entries, t))
  {
    hide Sync, ClaimsOf, R, LastRoot, TombsAre, Endorse;
    var c, P, rv := ClaimsOf(poll, entries, t), t.pins.Keys, R(poll, entries, t);
    ClaimsOutcome(poll, entries, t);
    if P <= rv {
      var s :| s in P && LastRoot(Judged(poll, t.pins, entries), P, s) && c.pins.Keys == {s}
               && Minus(c.pins, t.pins, rv - {s}) && TombsAre(poll, entries, t, c.tombs, rv - {s});
      PollKeeps(poll, entries, t, {s});
    } else {
      assert rv - {} == rv;
      PollKeeps(poll, entries, t, {});
    }
  }

  lemma PollKeeps(poll: Poll, entries: seq<Entry>, t: Trust, spared: set<KeyId>)
    requires ClaimsOf(poll, entries, t).pins != map[]
    requires var c, gone := ClaimsOf(poll, entries, t), R(poll, entries, t) - spared;
      Minus(c.pins, t.pins, gone) && TombsAre(poll, entries, t, c.tombs, gone)
    ensures var u, gone := Sync(poll, entries, t), R(poll, entries, t) - spared;
      && (forall k :: k in gone ==> k in u.tombs && k !in u.pins)
      && (forall k :: k in t.pins.Keys - gone ==> k in u.pins && u.pins[k] == t.pins[k])
      && TombsAre(poll, entries, t, u.tombs, gone)
  {
    EndorseFrame(poll, entries, ClaimsOf(poll, entries, t));
  }

  lemma {:induction false} AdoptFrame(entries: seq<Entry>, c: Claims)
    ensures var a := Adopt(entries, c);
      && a.tombs == c.tombs && a.advisory == c.advisory
      && (forall k :: k in a.pins && (k !in c.pins || a.pins[k] != c.pins[k]) ==>
            k !in c.tombs && k !in c.advisory && Supplied(entries, k, a.pins[k]) && k in a.admissions)
      && (forall k :: k in a.admissions ==> k in c.admissions || k in a.pins)
      && (forall k :: k in c.pins ==> k in a.pins)
  {
    if entries != [] {
      var rest, e := entries[..|entries| - 1], entries[|entries| - 1];
      AdoptFrame(rest, c);
      var a', a := Adopt(rest, c), Adopt(entries, c);
      forall k | k in a.pins && (k !in c.pins || a.pins[k] != c.pins[k])
        ensures k !in c.tombs && k !in c.advisory && Supplied(entries, k, a.pins[k])
      {
        if k == e.keyId && a.pins[k] == e.publicKey && Adoptable(a', e) {
          assert e in entries;
        } else {
          assert Supplied(rest, k, a'.pins[k]);
          var x :| x in rest && x.keyId == k && x.publicKey == a'.pins[k];
          assert x in entries;
        }
      }
    }
  }

  /** First use adopts exactly the ids the list offers with a key and no tombstone or advisory claim. */
  lemma {:induction false} AdoptExactly(entries: seq<Entry>, c: Claims, k: KeyId)
    ensures k in Adopt(entries, c).pins <==> k in c.pins || exists e :: e in entries && e.keyId == k && Adoptable(c, e)
  {
    if entries != [] {
      var rest, e := entries[..|entries| - 1], entries[|entries| - 1];
      AdoptExactly(rest, c, k);
      AdoptFrame(rest, c);
      assert entries == rest + [e];
      assert forall x :: Adoptable(c, x) <==> Adoptable(Adopt(rest, c), x);
      assert e in entries;
    }
  }

  /** Each pin a poll chains in carries the endorsement it was admitted on, and its endorser is pinned. */
  ghost predicate Backed(poll: Poll, r: Claims, k: KeyId)
    requires k in r.pins
  {
    && k in r.admissions && r.admissions[k].ByChain? && r.admissions[k].endorser in r.pins
    && poll.verify(EndorsementPayload(poll.fleet, k, r.pins[k]), r.admissions[k].sig, r.pins[r.admissions[k].endorser])
  }

  lemma {:induction false} ChainBacked(poll: Poll, entries: seq<Entry>, c: Claims, k: KeyId)
    requires k in Endorse(poll, entries, c).pins && k !in c.pins
    ensures Backed(poll, Endorse(poll, entries, c), k)
  {
    if entries != [] {
      var rest, e := entries[..|entries| - 1], entries[|entries| - 1];
      EndorseFrame(poll, rest, c);
      if k in Endorse(poll, rest, c).pins { ChainBacked(poll, rest, c, k); }
    }
  }

  lemma PollKeepsSound(poll: Poll, entries: seq<Entry>, t: Trust)
    requires Sound(t)
    ensures Sound(Sync(poll, entries, t))
    ensures t.pins != map[] ==> Sync(poll, entries, t).pins != map[]
    ensures Sync(poll, entries, t).tofu && !t.tofu ==> t.pins == map[]
    ensures t.tofu ==> Sync(poll, entries, t).tofu
  {
    var c := ClaimsOf(poll, entries, t);
    ClaimsOutcome(poll, entries, t);
    AdoptFrame(entries, c);
    EndorseFrame(poll, entries, c);
    if k :| k in c.pins {
      assert k in Endorse(poll, entries, c).pins;
    }
  }

  // ---------------------------------------------------------------------
  // One seed
  // ---------------------------------------------------------------------

  ghost predicate FromSeed(derive: PublicKey -> Option<KeyId>, pubs: seq<PublicKey>, k: KeyId, p: PublicKey) {
    p in pubs && derive(p) == Some(k)
  }

  lemma SeedStepFrame(derive: PublicKey -> Option<KeyId>, t: Trust, pub: PublicKey)
    requires Sound(t)
    ensures var u := SeedStep(derive, t, pub);
      && Sound(u) && u.tombs == t.tombs && u.tofu == t.tofu && u.admissions == t.admissions
      && (forall k :: k in t.pins ==> k in u.pins)
      && (forall k :: k in u.pins && (k !in t.pins || u.pins[k] != t.pins[k]) ==> u.pins[k] == pub && derive(pub) == Some(k))
  {
    if k :| k in t.pins { assert k in SeedStep(derive, t, pub).pins; }
  }

  lemma {:induction false} SeedFrame(derive: PublicKey -> Option<KeyId>, pubs: seq<PublicKey>, t: Trust)
    requires Sound(t)
    ensures var u := Seed(derive, pubs, t);
      && Sound(u) && u.tombs == t.tombs && u.tofu == t.tofu && u.admissions == t.admissions
      && (forall k :: k in t.pins ==> k in u.pins)
      && (forall k :: k in u.pins && (k !in t.pins || u.pins[k] != t.pins[k]) ==> FromSeed(derive, pubs, k, u.pins[k]))
  {
    if pubs != [] {
      var rest, pub := pubs[..|pubs| - 1], pubs[|pubs| - 1];
      SeedFrame(derive, rest, t);
      var u', u := Seed(derive, rest, t), Seed(derive, pubs, t);
      assert pubs == rest + [pub];
      SeedStepFrame(derive, u', pub);
      forall k | k in u.pins && (k !in t.pins || u.pins[k] != t.pins[k]) ensures FromSeed(derive, pubs, k, u.pins[k]) {
        if k in u'.pins && u'.pins[k] == u.pins[k] { assert FromSeed(derive, rest, k, u'.pins[k]); }
      }
    }
  }

  // ---------------------------------------------------------------------
  // Whole runs
  // ---------------------------------------------------------------------

  lemma NextKeeps(ev: Event, t: Trust)
    requires Sound(t)
    ensures var u := Next(ev, t);
      && Sound(u)
      && (t.pins != map[] ==> u.pins != map[])
      && (t.tofu ==> u.tofu)
      && (u.tofu && !t.tofu ==> t.pins == map[] && ev.Polled?)
  {
    match ev
    case Polled(poll, entries) => PollKeepsSound(poll, entries, t);
    case Seeded(derive, pubs) =>
      SeedFrame(derive, pubs, t);
      if k :| k in t.pins { assert k in Seed(derive, pubs, t).pins; }
  }

  lemma {:induction false} RunSound(ts: seq<Trust>, evs: seq<Event>, i: nat)
    requires IsRun(ts, evs) && i < |ts|
    ensures Sound(ts[i])
  {
    if i > 0 {
      RunSound(ts, evs, i - 1);
      NextKeeps(evs[i - 1], ts[i - 1]);
    }
  }

  lemma {:induction false} RunMonotone(ts: seq<Trust>, evs: seq<Event>, i: nat, j: nat)
    requires IsRun(ts, evs) && i <= j < |ts|
    ensures ts[i].pins != map[] ==> ts[j].pins != map[]
    ensures ts[i].tofu ==> ts[j].tofu
  {
    if i < j {
      RunMonotone(ts, evs, i, j - 1);
      RunSound(ts, evs, j - 1);
      NextKeeps(evs[j - 1], ts[j - 1]);
    }
  }

  ghost predicate Adopts(ts: seq<Trust>, i: nat)
    requires i + 1 < |ts|
  {
    !ts[i].tofu && ts[i + 1].tofu
  }

  /** Over every run: pins and tombstones stay disjoint, a nonempty pin set never becomes
      empty, and first-use adoption happens at most once and only if no key was ever pinned. */
  lemma TrustRootNeverLost(ts: seq<Trust>, evs: seq<Event>)
    requires IsRun(ts, evs)
    ensures forall i :: 0 <= i < |ts| ==> ts[i].pins.Keys !! ts[i].tombs.Keys && ts[i].admissions.Keys <= ts[i].pins.Keys
    ensures forall i, j :: 0 <= i <= j < |ts| && ts[i].pins != map[] ==> ts[j].pins != map[]
    ensures forall i, j :: 0 <= i < |evs| && 0 <= j < |evs| && Adopts(ts, i) && Adopts(ts, j) ==> i == j
    ensures forall i, j :: 0 <= j <= i < |evs| && Adopts(ts, i) ==> ts[j].pins == map[]
  {
    forall i | 0 <= i < |ts| ensures Sound(ts[i]) { RunSound(ts, evs, i); }
    forall i, j | 0 <= i <= j < |ts| ensures ts[i].pins != map[] ==> ts[j].pins != map[] { RunMonotone(ts, evs, i, j); }
    forall i, j | 0 <= i < j < |evs| && Adopts(ts, i) ensures !Adopts(ts, j) { RunMonotone(ts, evs, i + 1, j); }
    forall i, j | 0 <= j <= i < |evs| && Adopts(ts, i) ensures ts[j].pins == map[] {
      NextKeeps(evs[i], ts[i]);
    }
  }

  /** Where a new pin (or a new key under an old id) of a step came from. */
  ghost predicate Justified(ev: Event, t: Trust, k: KeyId, p: PublicKey) {
    match ev
    case Seeded(derive, pubs) => FromSeed(derive, pubs, k, p)
    case Polled(poll, entries) =>
      || (t.pins == map[] && !t.tofu && Supplied(entries, k, p))
      || (k !in t.pins &&
          var c := ClaimsOf(poll, entries, t);
          && k in Endorse(poll, entries, c).pins && Backed(poll, Endorse(poll, entries, c), k)
          && (forall S :: EndorsementClosed(poll, entries, c.pins.Keys + c.tombs.Keys + c.advisory, S) && Within(c.pins, S)
                ==> (k, p) in S))
  }

  /** Every new pin of every step is a configured key, a first-use adoption, or lies in the
      endorsement closure of the pins that survived the poll's revocations. */
  lemma PinProvenance(ts: seq<Trust>, evs: seq<Event>, i: nat, k: KeyId)
    requires IsRun(ts, evs) && i < |evs|
    requires k in ts[i + 1].pins && (k !in ts[i].pins || ts[i + 1].pins[k] != ts[i].pins[k])
    ensures Justified(evs[i], ts[i], k, ts[i + 1].pins[k])
  {
    var t, u := ts[i], ts[i + 1];
    RunSound(ts, evs, i);
    match evs[i]
    case Seeded(derive, pubs) => SeedFrame(derive, pubs, t);
    case Polled(poll, entries) =>
      var c := ClaimsOf(poll, entries, t);
      ClaimsOutcome(poll, entries, t);
      AdoptFrame(entries, c);
      if u.tofu && !t.tofu {
        assert Supplied(entries, k, u.pins[k]);
      } else {
        EndorseFrame(poll, entries, c);
        assert k !in c.pins;
        if k in t.pins { PollReEndorses(poll, entries, t, k); }
        ChainBacked(poll, entries, c, k);
        forall S | EndorsementClosed(poll, entries, c.pins.Keys + c.tombs.Keys + c.advisory, S) && Within(c.pins, S)
          ensures (k, u.pins[k]) in S
        {
          EndorseSound(poll, entries, entries, c, S);
        }
      }
  }

  /** An id a poll unpins is tombstoned in that poll, so the same poll cannot chain it back in. */
  lemma PollReEndorses(poll: Poll, entries: seq<Entry>, t: Trust, k: KeyId)
    requires Sound(t) && k in t.pins && k !in ClaimsOf(poll, entries, t).pins
    ensures k in ClaimsOf(poll, entries, t).tombs && k !in Endorse(poll, entries, ClaimsOf(poll, entries, t)).pins
  {
    ClaimsOutcome(poll, entries, t);
    EndorseFrame(poll, entries, ClaimsOf(poll, entries, t));
  }
}
