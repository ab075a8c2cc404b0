/** The identity object whose trust fields the poll and the seed update in place, proved
    to move exactly as the value-level trust root of `TrustRoot` and `TrustRuns`. */
module IdentityObject {
  import opened OrderedMaps
  import opened TrustRoot
  import opened TrustRuns

  class Identity {
    var pinnedOperatorKeys: map<KeyId, PublicKey>
    var revokedOperatorKeys: map<KeyId, string>
    var operatorKeyAdmissions: map<KeyId, Admission>
    var tofuAt: Option<string>

    constructor ()
      ensures State() == NeverPinned
    {
      pinnedOperatorKeys, revokedOperatorKeys, operatorKeyAdmissions, tofuAt := map[], map[], map[], None;
    }

    function State(): Trust
      reads this
    {
      Trust(pinnedOperatorKeys, revokedOperatorKeys, operatorKeyAdmissions, tofuAt.Some?)
    }

    /** One poll. The result says whether the identity has to be saved. */
    method SyncPinnedOperatorKeys(poll: Poll, entries: seq<Entry>, at: string) returns (changed: bool)
      modifies this
      ensures State() == Sync(poll, entries, old(State()))
      ensures !changed ==> State() == old(State())
      ensures old(tofuAt).Some? ==> tofuAt == old(tofuAt)
    {
      hide Judged, Revocations, ClearTombs, Adopt;
      ghost var t := State();
      var authorities := pinnedOperatorKeys;
      var ledger, cleared := ClearTombstones(poll, authorities, entries, revokedOperatorKeys);
      var c, pinRemoved, tombAdded, admissionDropped :=
        ApplyRevocations(poll, authorities, entries, Claims(pinnedOperatorKeys, ledger, operatorKeyAdmissions, {}));
      assert c == ClaimsOf(poll, entries, t);
      changed := pinRemoved;
      if cleared || tombAdded {
        revokedOperatorKeys := c.tombs;
        changed := true;
      }
      if c.pins == map[] && tofuAt.None? {
        var a, adopted := AdoptFirstUse(entries, c);
        if adopted {
          tofuAt, pinnedOperatorKeys, operatorKeyAdmissions := Some(at), a.pins, a.admissions;
          return true;
        }
      }
      var r, chained := ChainEndorsements(poll, entries, c);
      if changed || chained {
        pinnedOperatorKeys := r.pins;
        changed := true;
      }
      if admissionDropped || chained {
        operatorKeyAdmissions := r.admissions;
        changed := true;
      }
      assert r == Endorse(poll, entries, c);
      assert pinnedOperatorKeys == r.pins;
      assert revokedOperatorKeys == r.tombs;
      assert operatorKeyAdmissions == r.admissions;
    }

    /** The config seed: a bootstrap hint that never re-pins a tombstoned key. */
    method SeedFromConfig(derive: PublicKey -> Option<KeyId>, pubs: seq<PublicKey>) returns (changed: bool)
      modifies this
      ensures State() == Seed(derive, pubs, old(State()))
      ensures !changed ==> State() == old(State())
    {
      ghost var t := State();
      changed := false;
      for i := 0 to |pubs|
        invariant State() == Seed(derive, pubs[..i], t)
        invariant !changed ==> State() == t
      {
        assert pubs[..i + 1][..i] == pubs[..i];
        var moved := SeedKey(derive, pubs[i]);
        changed := changed || moved;
      }
      assert pubs[..|pubs|] == pubs;
    }

    method SeedKey(derive: PublicKey -> Option<KeyId>, pub: PublicKey) returns (moved: bool)
      modifies this`pinnedOperatorKeys
      ensures State() == SeedStep(derive, old(State()), pub)
      ensures moved <==> SeedMoves(derive, old(State()), pub)
      ensures !moved ==> State() == old(State())
    {
      moved := false;
      SeedMovesMeaning(derive, State(), pub);
      if pub != "" && derive(pub).Some? {
        var kid := derive(pub).value;
        if kid in revokedOperatorKeys && revokedOperatorKeys[kid] != "" {
          moved := kid in pinnedOperatorKeys;
          pinnedOperatorKeys := pinnedOperatorKeys - {kid};
        } else if kid !in pinnedOperatorKeys || pinnedOperatorKeys[kid] != pub {
          pinnedOperatorKeys := pinnedOperatorKeys[kid := pub];
          moved := true;
        }
      }
    }
  }

  /** The configured key changes the pins: a tombstoned one still pinned, or one not pinned under its id. */
  predicate SeedMoves(derive: PublicKey -> Option<KeyId>, t: Trust, pub: PublicKey) {
    && pub != "" && derive(pub).Some?
    && var kid := derive(pub).value;
       if kid in t.tombs && t.tombs[kid] != "" then kid in t.pins else kid !in t.pins || t.pins[kid] != pub
  }

  lemma SeedMovesMeaning(derive: PublicKey -> Option<KeyId>, t: Trust, pub: PublicKey)
    ensures SeedMoves(derive, t, pub) <==> SeedStep(derive, t, pub) != t
  {
    if pub != "" && derive(pub).Some? {
      var kid := derive(pub).value;
      assert kid !in t.pins ==> t.pins - {kid} == t.pins;
      assert kid in t.pins && t.pins[kid] == pub ==> t.pins[kid := pub] == t.pins;
      assert kid in t.pins ==> kid !in (t.pins - {kid});
    }
  }

  method ClearTombstones(poll: Poll, authorities: map<KeyId, PublicKey>, entries: seq<Entry>, ledger0: map<KeyId, string>)
    returns (ledger: map<KeyId, string>, changed: bool)
    ensures ledger == ClearTombs(poll, authorities, entries, ledger0)
    ensures !changed ==> ledger == ledger0
  {
    ledger, changed := ledger0, false;
    for i := 0 to |entries|
      invariant ledger == ClearTombs(poll, authorities, entries[..i], ledger0)
      invariant !changed ==> ledger == ledger0
    {
      assert entries[..i + 1][..i] == entries[..i];
      var e := entries[i];
      if e.keyId == "" || e.unrevokeSig == "" || e.keyId !in ledger { continue; }
      if e.unrevokeRevokedAt == "" || e.unrevokeIssuedAt == "" || e.unrevokeNonce == "" { continue; }
      var payload := UnrevokePayload(poll.fleet, e.keyId, e.unrevokeRevokedAt, e.unrevokeIssuedAt, e.unrevokeNonce);
      if poll.fleet == "" || !SignedByPinned(poll, authorities, payload, e.unrevokeSig) { continue; }
      if e.unrevokeRevokedAt != ledger[e.keyId] { continue; }
      ledger := ledger - {e.keyId};
      changed := true;
    }
    assert entries[..|entries|] == entries;
  }

  lemma RevocationsSnoc(js: seq<Judgement>, i: nat, c: Claims)
    requires i < |js|
    ensures Revocations(js[..i + 1], c) == RevokeStep(Revocations(js[..i], c), js[i])
  {
    assert js[..i + 1][..i] == js[..i];
  }

  method ApplyRevocations(poll: Poll, authorities: map<KeyId, PublicKey>, entries: seq<Entry>, c0: Claims)
    returns (c: Claims, pinRemoved: bool, tombAdded: bool, admissionDropped: bool)
    ensures c == Revocations(Judged(poll, authorities, entries), c0)
    ensures pinRemoved || c.pins == c0.pins
    ensures tombAdded || c.tombs == c0.tombs
    ensures admissionDropped || c.admissions == c0.admissions
  {
    ghost var js := Judged(poll, authorities, entries);
    c, pinRemoved, tombAdded, admissionDropped := c0, false, false, false;
    for i := 0 to |entries|
      invariant c == Revocations(js[..i], c0)
      invariant pinRemoved || c.pins == c0.pins
      invariant tombAdded || c.tombs == c0.tombs
      invariant admissionDropped || c.admissions == c0.admissions
    {
      RevocationsSnoc(js, i, c0);
      var e := entries[i];
      if e.keyId == "" || !e.revoked { continue; }
      if !Proven(poll, authorities, e) {
        c := c.(advisory := c.advisory + {e.keyId});
      } else if e.keyId in c.pins && |c.pins| == 1 {
        // the last root: the claim is refused whole
      } else {
        var pin, tomb, admission;
        c, pin, tomb, admission := HonorRevocation(c, e.keyId, e.revokedAt);
        pinRemoved, tombAdded, admissionDropped := pinRemoved || pin, tombAdded || tomb, admissionDropped || admission;
      }
    }
    assert js[..|entries|] == js;
  }

  /** Tombstone, unpin, forget why it was admitted. */
  method HonorRevocation(c: Claims, k: KeyId, at: string) returns (r: Claims, pin: bool, tomb: bool, admission: bool)
    ensures r == Claims(c.pins - {k}, if k in c.tombs then c.tombs else c.tombs[k := at], c.admissions - {k}, c.advisory)
    ensures pin <==> k in c.pins
    ensures tomb <==> k !in c.tombs
    ensures admission <==> k in c.admissions
    ensures pin || r.pins == c.pins
    ensures tomb || r.tombs == c.tombs
    ensures admission || r.admissions == c.admissions
  {
    r, pin, tomb, admission := c, false, false, false;
    if k !in r.tombs {
      r := r.(tombs := r.tombs[k := at]);
      tomb := true;
    }
    if k in r.pins {
      r := r.(pins := r.pins - {k});
      pin := true;
    } else {
      assert r.pins - {k} == r.pins;
    }
    if k in r.admissions {
      r := r.(admissions := r.admissions - {k});
      admission := true;
    } else {
      assert r.admissions - {k} == r.admissions;
    }
  }

  method AdoptFirstUse(entries: seq<Entry>, c0: Claims) returns (c: Claims, adopted: bool)
    requires c0.pins == map[]
    ensures c == Adopt(entries, c0) && c.tombs == c0.tombs
    ensures adopted <==> c.pins != map[]
  {
    c, adopted := c0, false;
    for i := 0 to |entries|
      invariant c == Adopt(entries[..i], c0)
      invariant adopted <==> c.pins != map[]
      invariant c.tombs == c0.tombs && c.advisory == c0.advisory
    {
      assert entries[..i + 1][..i] == entries[..i];
      var e := entries[i];
      if e.keyId != "" && e.publicKey != "" && e.keyId !in c0.advisory && e.keyId !in c0.tombs {
        c := c.(pins := c.pins[e.keyId := e.publicKey], admissions := c.admissions[e.keyId := ByTofu]);
        adopted := true;
        assert e.keyId in c.pins;
      }
    }
    assert entries[..|entries|] == entries;
  }

  method ChainEndorsements(poll: Poll, entries: seq<Entry>, c0: Claims) returns (c: Claims, chained: bool)
    ensures c == Endorse(poll, entries, c0) && c.tombs == c0.tombs
    ensures !chained ==> c == c0
  {
    c, chained := c0, false;
    for i := 0 to |entries|
      invariant c == Endorse(poll, entries[..i], c0) && c.tombs == c0.tombs
      invariant !chained ==> c == c0
    {
      assert entries[..i + 1][..i] == entries[..i];
      var e := entries[i];
      if e.keyId == "" { continue; }
      if e.keyId in c.pins { continue; }
      if e.keyId in c.tombs { continue; }
      if e.keyId in c.advisory { continue; }
      if e.endorsedBy != "" && e.endorsementSig != "" && e.publicKey != "" && poll.fleet != "" && e.endorsedBy in c.pins {
        if poll.verify(EndorsementPayload(poll.fleet, e.keyId, e.publicKey), e.endorsementSig, c.pins[e.endorsedBy]) {
          c := c.(pins := c.pins[e.keyId := e.publicKey],
                  admissions := c.admissions[e.keyId := ByChain(e.endorsedBy, e.endorsementSig)]);
          chained := true;
        }
      }
    }
    assert entries[..|entries|] == entries;
  }
}
