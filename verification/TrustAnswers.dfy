/** What a poll and a seed do to the trust root, both ways round and in terms of the served fields and signatures: what is
    adopted on first use, what a signed revocation removes, what a signed un-revoke clears, what an endorsement admits
    and what the seed pins. */
module TrustAnswers {
  import opened OrderedMaps
  import opened TrustRoot
  import opened TrustRuns

  // ---------------------------------------------------------------------
  // First use
  // ---------------------------------------------------------------------

  ghost predicate ClaimedRevoked(entries: seq<Entry>, k: KeyId) {
    exists e :: e in entries && e.keyId == k && e.revoked
  }

  /** An id the list offers with a key, that nothing in the list claims revoked and no tombstone stands for. */
  ghost predicate Offered(entries: seq<Entry>, tombs: map<KeyId, string>, k: KeyId) {
    && k != "" && k !in tombs && !ClaimedRevoked(entries, k)
    && exists e :: e in entries && e.keyId == k && e.publicKey != ""
  }

  /** `p` is the key of the last entry that offers one for `k`. */
  ghost predicate LastOffer(entries: seq<Entry>, k: KeyId, p: PublicKey) {
    exists i :: 0 <= i < |entries| && entries[i].keyId == k && entries[i].publicKey == p && p != ""
      && forall j :: i < j < |entries| ==> entries[j].keyId != k || entries[j].publicKey == ""
  }

  /** With no authority nothing is proven: claims of revocation block adoption, and nothing else changes. */
  lemma {:induction false} NoAuthority(poll: Poll, entries: seq<Entry>, c: Claims)
    ensures ClearTombs(poll, map[], entries, c.tombs) == c.tombs
    ensures
      var r := Revocations(Judged(poll, map[], entries), c);
      r == c.(advisory := r.advisory) && forall k :: k in r.advisory <==> k in c.advisory || (k != "" && ClaimedRevoked(entries, k))
  {
    if entries != [] {
      var n := |entries| - 1;
      var rest, e := entries[..n], entries[n];
      NoAuthority(poll, rest, c);
      assert Judged(poll, map[], entries)[..n] == Judged(poll, map[], rest);
      forall k ensures ClaimedRevoked(entries, k) <==> ClaimedRevoked(rest, k) || (e.keyId == k && e.revoked) {
        assert entries == rest + [e] && e in entries;
      }
    }
  }

  lemma {:induction false} AdoptsLast(entries: seq<Entry>, c: Claims, k: KeyId)
    requires k in Adopt(entries, c).pins && k !in c.pins
    ensures LastOffer(entries, k, Adopt(entries, c).pins[k])
    ensures k in Adopt(entries, c).admissions && Adopt(entries, c).admissions[k] == ByTofu
  {
    var n := |entries| - 1;
    var rest, e := entries[..n], entries[n];
    AdoptFrame(rest, c);
    if k in Adopt(rest, c).pins {
      AdoptsLast(rest, c, k);
      AdoptExactly(rest, c, k);
      LastOfferExtends(entries, k, Adopt(rest, c).pins[k]);
    }
    if e.keyId == k && e.publicKey != "" { assert LastOffer(entries, k, e.publicKey) by { assert entries[n] == e; } }
  }

  lemma LastOfferExtends(entries: seq<Entry>, k: KeyId, p: PublicKey)
    requires entries != [] && LastOffer(entries[..|entries| - 1], k, p)
    ensures var e := entries[|entries| - 1]; e.keyId != k || e.publicKey == "" ==> LastOffer(entries, k, p)
  {
    var n := |entries| - 1;
    var rest := entries[..n];
    var i :| 0 <= i < |rest| && rest[i].keyId == k && rest[i].publicKey == p && p != ""
      && forall j :: i < j < |rest| ==> rest[j].keyId != k || rest[j].publicKey == "";
    if entries[n].keyId != k || entries[n].publicKey == "" {
      forall j | i < j < |entries| ensures entries[j].keyId != k || entries[j].publicKey == "" { if j < n { assert rest[j] == entries[j]; } }
      assert entries[i] == rest[i];
    }
  }

  /** An identity with no pin and no latch adopts, of what one poll serves, exactly the offered ids, each with the key of
      its last offer and recorded as first use; the latch is set if and only if there is one; tombstones stand. */
  lemma FirstUse(poll: Poll, entries: seq<Entry>, t: Trust)
    requires t.pins == map[] && !t.tofu
    ensures
      var u := Sync(poll, entries, t);
      && (forall k :: k in u.pins <==> Offered(entries, t.tombs, k))
      && (forall k :: k in u.pins ==> LastOffer(entries, k, u.pins[k]) && k in u.admissions && u.admissions[k] == ByTofu)
      && (u.tofu <==> exists k :: Offered(entries, t.tombs, k))
      && u.tombs == t.tombs
  {
    hide Revocations, Adopt, Endorse, ClearTombs;
    var c, u := ClaimsOf(poll, entries, t), Sync(poll, entries, t);
    NoAuthority(poll, entries, Claims(map[], t.tombs, t.admissions, {}));
    assert c.pins == map[] && c.tombs == t.tombs;
    AdoptFrame(entries, c);
    forall k ensures k in Adopt(entries, c).pins <==> Offered(entries, t.tombs, k) { OfferedIsAdopted(entries, c, t.tombs, k); }
    EndorseNothing(poll, entries, c);
    forall k | k in u.pins ensures LastOffer(entries, k, u.pins[k]) && k in u.admissions && u.admissions[k] == ByTofu {
      AdoptsLast(entries, c, k);
    }
    if u.tofu { var k :| k in u.pins; assert Offered(entries, t.tombs, k); }
  }

  lemma OfferedIsAdopted(entries: seq<Entry>, c: Claims, tombs: map<KeyId, string>, k: KeyId)
    requires c.pins == map[] && c.tombs == tombs && forall x :: x in c.advisory <==> x != "" && ClaimedRevoked(entries, x)
    ensures k in Adopt(entries, c).pins <==> Offered(entries, tombs, k)
  {
    AdoptExactly(entries, c, k);
    if Offered(entries, tombs, k) {
      var e :| e in entries && e.keyId == k && e.publicKey != "";
      assert Adoptable(c, e);
    }
  }

  lemma {:induction false} EndorseNothing(poll: Poll, entries: seq<Entry>, c: Claims)
    requires c.pins == map[]
    ensures Endorse(poll, entries, c) == c
  {
    if entries != [] { EndorseNothing(poll, entries[..|entries| - 1], c); }
  }

  // ---------------------------------------------------------------------
  // Signed claims
  // ---------------------------------------------------------------------

  /** Some served entry revokes `k` with a time and a signature by a key pinned when the poll arrived. */
  ghost predicate SignedRevocation(poll: Poll, pins: map<KeyId, PublicKey>, entries: seq<Entry>, k: KeyId) {
    && k != "" && poll.fleet != ""
    && exists e, a :: e in entries && a in pins && e.keyId == k && e.revoked && e.revokedAt != "" && e.revocationSig != ""
         && poll.verify(RevocationPayload(poll.fleet, k, e.revokedAt), e.revocationSig, pins[a])
  }

  lemma ProvenIsSigned(poll: Poll, pins: map<KeyId, PublicKey>, entries: seq<Entry>, k: KeyId)
    ensures ProvenIn(poll, pins, entries, k) <==> SignedRevocation(poll, pins, entries, k)
  {
    if ProvenIn(poll, pins, entries, k) {
      var e :| e in entries && e.keyId == k && Proven(poll, pins, e);
      var a :| a in pins && poll.verify(RevocationPayload(poll.fleet, e.keyId, e.revokedAt), e.revocationSig, pins[a]);
    }
    if SignedRevocation(poll, pins, entries, k) {
      var e, a :| e in entries && a in pins && e.keyId == k && e.revoked && e.revokedAt != "" && e.revocationSig != ""
         && poll.verify(RevocationPayload(poll.fleet, k, e.revokedAt), e.revocationSig, pins[a]);
      assert Proven(poll, pins, e);
    }
  }

  /** Some served entry un-revokes `k` as tombstoned at `at`, with every bound field and a signature by a key pinned when
      the poll arrived. */
  ghost predicate SignedUnrevoke(poll: Poll, pins: map<KeyId, PublicKey>, entries: seq<Entry>, k: KeyId, at: string) {
    && k != "" && poll.fleet != "" && at != ""
    && exists e, a :: e in entries && a in pins && e.keyId == k && e.unrevokeSig != "" && e.unrevokeRevokedAt == at
         && e.unrevokeIssuedAt != "" && e.unrevokeNonce != ""
         && poll.verify(UnrevokePayload(poll.fleet, k, at, e.unrevokeIssuedAt, e.unrevokeNonce), e.unrevokeSig, pins[a])
  }

  lemma UnrevokedIsSigned(poll: Poll, pins: map<KeyId, PublicKey>, entries: seq<Entry>, k: KeyId, at: string)
    ensures UnrevokedBy(poll, pins, entries, k, at) <==> SignedUnrevoke(poll, pins, entries, k, at)
  {
    if UnrevokedBy(poll, pins, entries, k, at) {
      var e :| e in entries && e.keyId == k && Unrevokes(poll, pins, e, at);
      var a :| a in pins && poll.verify(UnrevokePayload(poll.fleet, k, at, e.unrevokeIssuedAt, e.unrevokeNonce), e.unrevokeSig, pins[a]);
    }
    if SignedUnrevoke(poll, pins, entries, k, at) {
      var e, a :| e in entries && a in pins && e.keyId == k && e.unrevokeSig != "" && e.unrevokeRevokedAt == at
         && e.unrevokeIssuedAt != "" && e.unrevokeNonce != ""
         && poll.verify(UnrevokePayload(poll.fleet, k, at, e.unrevokeIssuedAt, e.unrevokeNonce), e.unrevokeSig, pins[a]);
      assert SignedByPinned(poll, pins, UnrevokePayload(poll.fleet, e.keyId, e.unrevokeRevokedAt, e.unrevokeIssuedAt, e.unrevokeNonce), e.unrevokeSig);
      assert Unrevokes(poll, pins, e, at);
    }
  }

  /** One poll while some pin has no signed revocation in it: a pin is lost if and only if one of its own keys signed its
      revocation, and an id ends tombstoned if and only if that, or a tombstone stood for it that nothing signed clears. */
  lemma SignedClaimsDecide(poll: Poll, entries: seq<Entry>, t: Trust, stands: KeyId, k: KeyId)
    requires Sound(t) && stands in t.pins && !SignedRevocation(poll, t.pins, entries, stands)
    ensures
      var u := Sync(poll, entries, t);
      && (k in t.pins ==> (k !in u.pins <==> SignedRevocation(poll, t.pins, entries, k)))
      && (k in t.pins && k in u.pins ==> u.pins[k] == t.pins[k])
      && (k in u.tombs <==> SignedRevocation(poll, t.pins, entries, k)
                            || (k in t.tombs && !SignedUnrevoke(poll, t.pins, entries, k, t.tombs[k])))
  {
    hide Sync, R, ProvenIn, SignedRevocation, SignedUnrevoke, UnrevokedBy;
    PollRevocation(poll, entries, t);
    ProvenIsSigned(poll, t.pins, entries, stands);
    ProvenIsSigned(poll, t.pins, entries, k);
    if k in t.tombs { UnrevokedIsSigned(poll, t.pins, entries, k, t.tombs[k]); }
    assert stands !in R(poll, entries, t);
    assert R(poll, entries, t) - {} == R(poll, entries, t);
  }

  // ---------------------------------------------------------------------
  // Endorsement
  // ---------------------------------------------------------------------

  /** An entry that a key pinned after the claims endorses, with a signature over its own id and key, and that nothing
      blocks, has its id pinned by that poll. */
  lemma EndorsedIsPinned(poll: Poll, entries: seq<Entry>, t: Trust, e: Entry)
    requires Sound(t) && t.pins != map[] && e in entries && e.keyId != "" && e.publicKey != "" && poll.fleet != ""
    requires
      var c := ClaimsOf(poll, entries, t);
      && e.keyId !in c.tombs && !ClaimedRevoked(entries, e.keyId)
      && e.endorsedBy != "" && e.endorsementSig != "" && e.endorsedBy in c.pins
      && poll.verify(EndorsementPayload(poll.fleet, e.keyId, e.publicKey), e.endorsementSig, c.pins[e.endorsedBy])
    ensures e.keyId in Sync(poll, entries, t).pins
  {
    var c := ClaimsOf(poll, entries, t);
    ClaimsOutcome(poll, entries, t);
    AdvisoryIsClaimed(poll, entries, t, e.keyId);
    EndorseFrame(poll, entries, c);
    if e.keyId !in c.pins {
      var i :| 0 <= i < |entries| && entries[i] == e;
      assert Endorsable(poll, c, e);
      EndorseProgress(poll, entries, c, i);
    }
  }

  lemma AdvisoryIsClaimed(poll: Poll, entries: seq<Entry>, t: Trust, k: KeyId)
    ensures k in ClaimsOf(poll, entries, t).advisory ==> ClaimedRevoked(entries, k)
  {
    var js := Judged(poll, t.pins, entries);
    RevocationsRemove(js, Claims(t.pins, ClearTombs(poll, t.pins, entries, t.tombs), t.admissions, {}));
    IdsMeaning(js, k);
    if k in AdvisoryIds(js) {
      var i :| 0 <= i < |js| && js[i].Unproven? && js[i].keyId == k;
      assert entries[i] in entries && entries[i].revoked;
    }
  }

  // ---------------------------------------------------------------------
  // The seed
  // ---------------------------------------------------------------------

  /** `p` is the last configured key whose derived id is `k`. */
  ghost predicate LastConfigured(derive: PublicKey -> Option<KeyId>, pubs: seq<PublicKey>, k: KeyId, p: PublicKey) {
    exists i :: 0 <= i < |pubs| && pubs[i] == p && p != "" && derive(p) == Some(k)
      && forall j :: i < j < |pubs| ==> pubs[j] == "" || derive(pubs[j]) != Some(k)
  }

  ghost predicate Configured(derive: PublicKey -> Option<KeyId>, pubs: seq<PublicKey>, k: KeyId) {
    exists p :: p in pubs && p != "" && derive(p) == Some(k)
  }

  /** The seed pins exactly the configured ids without a tombstone, each with its last configured key, and keeps every
      other pin as it is. */
  lemma {:induction false} SeedOutcome(derive: PublicKey -> Option<KeyId>, pubs: seq<PublicKey>, t: Trust, k: KeyId)
    requires Sound(t)
    ensures
      var u := Seed(derive, pubs, t);
      && (k in u.pins <==> k in t.pins || (k !in t.tombs && Configured(derive, pubs, k)))
      && (k in u.pins && Configured(derive, pubs, k) ==> LastConfigured(derive, pubs, k, u.pins[k]))
      && (k in u.pins && !Configured(derive, pubs, k) ==> u.pins[k] == t.pins[k])
  {
    if pubs != [] {
      var n := |pubs| - 1;
      var rest, pub := pubs[..n], pubs[n];
      SeedOutcome(derive, rest, t, k);
      SeedFrame(derive, rest, t);
      ConfiguredSnoc(derive, pubs, k);
      var u' := Seed(derive, rest, t);
      if k in u'.pins && Configured(derive, rest, k) { LastConfiguredExtends(derive, pubs, k, u'.pins[k]); }
      if pub != "" && derive(pub) == Some(k) { assert LastConfigured(derive, pubs, k, pub) by { assert pubs[n] == pub; } }
    }
  }

  lemma ConfiguredSnoc(derive: PublicKey -> Option<KeyId>, pubs: seq<PublicKey>, k: KeyId)
    requires pubs != []
    ensures
      var rest, pub := pubs[..|pubs| - 1], pubs[|pubs| - 1];
      Configured(derive, pubs, k) <==> Configured(derive, rest, k) || (pub != "" && derive(pub) == Some(k))
  {
    var rest, pub := pubs[..|pubs| - 1], pubs[|pubs| - 1];
    assert pubs == rest + [pub] && pub in pubs;
  }

  lemma LastConfiguredExtends(derive: PublicKey -> Option<KeyId>, pubs: seq<PublicKey>, k: KeyId, p: PublicKey)
    requires pubs != [] && LastConfigured(derive, pubs[..|pubs| - 1], k, p)
    ensures var pub := pubs[|pubs| - 1]; pub == "" || derive(pub) != Some(k) ==> LastConfigured(derive, pubs, k, p)
  {
    var n := |pubs| - 1;
    var rest := pubs[..n];
    var i :| 0 <= i < |rest| && rest[i] == p && p != "" && derive(p) == Some(k)
      && forall j :: i < j < |rest| ==> rest[j] == "" || derive(rest[j]) != Some(k);
    if pubs[n] == "" || derive(pubs[n]) != Some(k) {
      forall j | i < j < |pubs| ensures pubs[j] == "" || derive(pubs[j]) != Some(k) { if j < n { assert rest[j] == pubs[j]; } }
      assert pubs[i] == rest[i];
    }
  }

  // ---------------------------------------------------------------------
  // Pins are keys
  // ---------------------------------------------------------------------

  ghost predicate Keyed(pins: map<KeyId, PublicKey>) {
    forall k :: k in pins ==> pins[k] != ""
  }

  lemma {:induction false} RevocationsKeepKeys(js: seq<Judgement>, c: Claims)
    requires Keyed(c.pins)
    ensures Keyed(Revocations(js, c).pins)
  {
    if js != [] { RevocationsKeepKeys(js[..|js| - 1], c); }
  }

  lemma {:induction false} AdoptsKeys(entries: seq<Entry>, c: Claims)
    requires Keyed(c.pins)
    ensures Keyed(Adopt(entries, c).pins)
  {
    if entries != [] { AdoptsKeys(entries[..|entries| - 1], c); }
  }

  lemma {:induction false} EndorsesKeys(poll: Poll, entries: seq<Entry>, c: Claims)
    requires Keyed(c.pins)
    ensures Keyed(Endorse(poll, entries, c).pins)
  {
    if entries != [] { EndorsesKeys(poll, entries[..|entries| - 1], c); }
  }

  lemma {:induction false} SeedsKeys(derive: PublicKey -> Option<KeyId>, pubs: seq<PublicKey>, t: Trust)
    requires Keyed(t.pins)
    ensures Keyed(Seed(derive, pubs, t).pins)
  {
    if pubs != [] { SeedsKeys(derive, pubs[..|pubs| - 1], t); }
  }

  /** In every run, every pinned id is pinned to a key: an entry or a configuration without one never pins anything. */
  lemma {:induction false} PinsAreKeys(ts: seq<Trust>, evs: seq<Event>, i: nat)
    requires IsRun(ts, evs) && i <= |evs|
    ensures forall k :: k in ts[i].pins ==> ts[i].pins[k] != ""
  {
    if i > 0 {
      PinsAreKeys(ts, evs, i - 1);
      var t := ts[i - 1];
      assert ts[i - 1 + 1] == Next(evs[i - 1], t);
      match evs[i - 1]
      case Polled(poll, entries) =>
        var c := ClaimsOf(poll, entries, t);
        RevocationsKeepKeys(Judged(poll, t.pins, entries), Claims(t.pins, ClearTombs(poll, t.pins, entries, t.tombs), t.admissions, {}));
        AdoptsKeys(entries, c);
        EndorsesKeys(poll, entries, c);
      case Seeded(derive, pubs) => SeedsKeys(derive, pubs, t);
    }
  }
}
