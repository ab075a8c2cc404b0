/** The operator trust root of an agent: pinned operator keys, the tombstone ledger,
    admission records and the one-shot trust-on-first-use latch, as the inbox poll
    (`sync_pinned_operator_keys`) and the config seed
    (`register_and_bootstrap_identity`) change them.

    Everything in a relay-served entry is the relay's choice. An absent or empty
    field is the empty string. Signature checking is a parameter. */
module TrustRoot {
  import opened OrderedMaps

  type KeyId = string
  type PublicKey = string
  type Pin = (KeyId, PublicKey)

  datatype Payload =
    | RevocationPayload(fleet: string, keyId: KeyId, at: string)
    | UnrevokePayload(fleet: string, keyId: KeyId, revokedAt: string, issuedAt: string, nonce: string)
    | EndorsementPayload(fleet: string, keyId: KeyId, publicKey: PublicKey)

  /** What one poll is judged by: the fleet id and the signature check. */
  datatype Poll = Poll(fleet: string, verify: (Payload, string, PublicKey) -> bool)

  datatype Entry = Entry(
    keyId: KeyId, publicKey: PublicKey,
    revoked: bool, revokedAt: string, revocationSig: string,
    endorsedBy: KeyId, endorsementSig: string,
    unrevokeSig: string, unrevokeRevokedAt: string, unrevokeIssuedAt: string, unrevokeNonce: string)

  datatype Admission = ByTofu | ByChain(endorser: KeyId, sig: string)

  datatype Trust = Trust(
    pins: map<KeyId, PublicKey>, tombs: map<KeyId, string>,
    admissions: map<KeyId, Admission>, tofu: bool)

  const NeverPinned := Trust(map[], map[], map[], false)

  // ---------------------------------------------------------------------
  // Claims: what a currently pinned key signed
  // ---------------------------------------------------------------------

  predicate SignedByPinned(poll: Poll, authorities: map<KeyId, PublicKey>, payload: Payload, sig: string) {
    exists k :: k in authorities && poll.verify(payload, sig, authorities[k])
  }

  predicate ClaimsRevoked(e: Entry) {
    e.keyId != "" && e.revoked
  }

  predicate Proven(poll: Poll, authorities: map<KeyId, PublicKey>, e: Entry) {
    && ClaimsRevoked(e)
    && e.revocationSig != "" && e.revokedAt != "" && poll.fleet != ""
    && SignedByPinned(poll, authorities, RevocationPayload(poll.fleet, e.keyId, e.revokedAt), e.revocationSig)
  }

  /** `e` is a signed un-revoke bound to the tombstone standing at time `at`. */
  predicate Unrevokes(poll: Poll, authorities: map<KeyId, PublicKey>, e: Entry, at: string) {
    && e.keyId != "" && e.unrevokeSig != ""
    && e.unrevokeRevokedAt != "" && e.unrevokeIssuedAt != "" && e.unrevokeNonce != ""
    && poll.fleet != ""
    && SignedByPinned(poll, authorities,
         UnrevokePayload(poll.fleet, e.keyId, e.unrevokeRevokedAt, e.unrevokeIssuedAt, e.unrevokeNonce), e.unrevokeSig)
    && e.unrevokeRevokedAt == at
  }

  predicate ValidEndorsement(poll: Poll, e: Entry, endorserKey: PublicKey) {
    && e.keyId != "" && e.endorsedBy != "" && e.endorsementSig != "" && e.publicKey != "" && poll.fleet != ""
    && poll.verify(EndorsementPayload(poll.fleet, e.keyId, e.publicKey), e.endorsementSig, endorserKey)
  }

  // ---------------------------------------------------------------------
  // The four passes of one sync, one entry at a time
  // ---------------------------------------------------------------------

  function ClearStep(poll: Poll, auth: map<KeyId, PublicKey>, tombs: map<KeyId, string>, e: Entry): map<KeyId, string> {
    if e.keyId in tombs && Unrevokes(poll, auth, e, tombs[e.keyId]) then tombs - {e.keyId} else tombs
  }

  function ClearTombs(poll: Poll, auth: map<KeyId, PublicKey>, entries: seq<Entry>, tombs: map<KeyId, string>): map<KeyId, string> {
    if entries == [] then tombs
    else ClearStep(poll, auth, ClearTombs(poll, auth, entries[..|entries| - 1], tombs), entries[|entries| - 1])
  }

  /** What one entry says about revocation once its proof has been judged. */
  datatype Judgement = Silent | Unproven(keyId: KeyId) | Revoked(keyId: KeyId, at: string)

  function Judge(poll: Poll, auth: map<KeyId, PublicKey>, e: Entry): Judgement {
    if !ClaimsRevoked(e) then Silent
    else if Proven(poll, auth, e) then Revoked(e.keyId, e.revokedAt)
    else Unproven(e.keyId)
  }

  function Judged(poll: Poll, auth: map<KeyId, PublicKey>, entries: seq<Entry>): (js: seq<Judgement>)
    ensures |js| == |entries| && forall i :: 0 <= i < |js| ==> js[i] == Judge(poll, auth, entries[i])
  {
    seq(|entries|, i requires 0 <= i < |entries| => Judge(poll, auth, entries[i]))
  }

  datatype Claims = Claims(
    pins: map<KeyId, PublicKey>, tombs: map<KeyId, string>,
    admissions: map<KeyId, Admission>, advisory: set<KeyId>)

  function RevokeStep(c: Claims, j: Judgement): Claims {
    match j
    case Silent => c
    case Unproven(k) => c.(advisory := c.advisory + {k})
    case Revoked(k, at) =>
      if k in c.pins && |c.pins| == 1 then c
      else Claims(c.pins - {k}, if k in c.tombs then c.tombs else c.tombs[k := at], c.admissions - {k}, c.advisory)
  }

  function Revocations(js: seq<Judgement>, c: Claims): Claims {
    if js == [] then c
    else RevokeStep(Revocations(js[..|js| - 1], c), js[|js| - 1])
  }

  predicate Adoptable(c: Claims, e: Entry) {
    e.keyId != "" && e.publicKey != "" && e.keyId !in c.advisory && e.keyId !in c.tombs
  }

  function AdoptStep(c: Claims, e: Entry): Claims {
    if Adoptable(c, e) then
      c.(pins := c.pins[e.keyId := e.publicKey], admissions := c.admissions[e.keyId := ByTofu])
    else c
  }

  function Adopt(entries: seq<Entry>, c: Claims): Claims {
    if entries == [] then c
    else AdoptStep(Adopt(entries[..|entries| - 1], c), entries[|entries| - 1])
  }

  predicate Endorsable(poll: Poll, c: Claims, e: Entry) {
    && e.keyId !in c.pins && e.keyId !in c.tombs && e.keyId !in c.advisory
    && e.endorsedBy in c.pins
    && ValidEndorsement(poll, e, c.pins[e.endorsedBy])
  }

  function EndorseStep(poll: Poll, c: Claims, e: Entry): Claims {
    if Endorsable(poll, c, e) then
      c.(pins := c.pins[e.keyId := e.publicKey],
         admissions := c.admissions[e.keyId := ByChain(e.endorsedBy, e.endorsementSig)])
    else c
  }

  function Endorse(poll: Poll, entries: seq<Entry>, c: Claims): Claims {
    if entries == [] then c
    else EndorseStep(poll, Endorse(poll, entries[..|entries| - 1], c), entries[|entries| - 1])
  }

  /** The trust root after the claims pass: un-revokes first, then revocations, both
      judged by the pins as they stood when the poll arrived. */
  function ClaimsOf(poll: Poll, entries: seq<Entry>, t: Trust): Claims {
    Revocations(Judged(poll, t.pins, entries),
      Claims(t.pins, ClearTombs(poll, t.pins, entries, t.tombs), t.admissions, {}))
  }

  /** One poll. */
  function Sync(poll: Poll, entries: seq<Entry>, t: Trust): Trust {
    var c := ClaimsOf(poll, entries, t);
    if c.pins == map[] && !t.tofu && Adopt(entries, c).pins != map[] then
      var a := Adopt(entries, c);
      Trust(a.pins, a.tombs, a.admissions, true)
    else
      var r := Endorse(poll, entries, c);
      Trust(r.pins, r.tombs, r.admissions, t.tofu)
  }

  // ---------------------------------------------------------------------
  // Revocation outcome
  // ---------------------------------------------------------------------

  /** R: the ids with a proven revocation. */
  ghost function ProvenIds(js: seq<Judgement>): set<KeyId> {
    if js == [] then {}
    else ProvenIds(js[..|js| - 1]) + (if js[|js| - 1].Revoked? then {js[|js| - 1].keyId} else {})
  }

  ghost function AdvisoryIds(js: seq<Judgement>): set<KeyId> {
    if js == [] then {}
    else AdvisoryIds(js[..|js| - 1]) + (if js[|js| - 1].Unproven? then {js[|js| - 1].keyId} else {})
  }

  lemma {:induction false} IdsMeaning(js: seq<Judgement>, k: KeyId)
    ensures k in ProvenIds(js) <==> exists i :: 0 <= i < |js| && js[i].Revoked? && js[i].keyId == k
    ensures k in AdvisoryIds(js) <==> exists i :: 0 <= i < |js| && js[i].Unproven? && js[i].keyId == k
  {
    if js != [] {
      var n := |js| - 1;
      IdsMeaning(js[..n], k);
      assert forall i :: 0 <= i < n ==> js[..n][i] == js[i];
    }
  }

  /** `s` is the pin whose first proven revocation is served after that of every other pin. */
  ghost predicate LastRoot(js: seq<Judgement>, P: set<KeyId>, s: KeyId) {
    exists i :: 0 <= i < |js| && js[i].Revoked? && js[i].keyId == s && P - ProvenIds(js[..i]) == {s}
  }

  lemma SinglePin(m: map<KeyId, PublicKey>, k: KeyId)
    requires k in m
    ensures |m| == 1 <==> m.Keys == {k}
  {
    if |m| == 1 {
      assert |m.Keys - {k}| == 0;
    }
    if m.Keys == {k} { assert |m.Keys| == 1; }
  }

  /** The pin a full set of proven revocations leaves standing; empty while some pin is unrevoked. */
  ghost function Spared(js: seq<Judgement>, P: set<KeyId>): set<KeyId> {
    if js == [] then {}
    else
      var rest, j := js[..|js| - 1], js[|js| - 1];
      var before := Spared(rest, P);
      if before != {} then before
      else if j.Revoked? && P - ProvenIds(rest) == {j.keyId} then {j.keyId}
      else {}
  }

  lemma {:induction false} SparedMeaning(js: seq<Judgement>, P: set<KeyId>)
    ensures !(P <= ProvenIds(js)) || P == {} ==> Spared(js, P) == {}
    ensures P <= ProvenIds(js) && P != {} ==>
      exists s :: Spared(js, P) == {s} && s in P && s in ProvenIds(js) && LastRoot(js, P, s)
  {
    if js != [] {
      var n := |js| - 1;
      var rest, j := js[..n], js[n];
      SparedMeaning(rest, P);
      if P != {} && P <= ProvenIds(rest) {
        var s :| Spared(rest, P) == {s} && s in P && s in ProvenIds(rest) && LastRoot(rest, P, s);
        var i :| 0 <= i < |rest| && rest[i].Revoked? && rest[i].keyId == s && P - ProvenIds(rest[..i]) == {s};
        assert rest[..i] == js[..i] && js[i] == rest[i];
        assert LastRoot(js, P, s);
      } else if P != {} && P <= ProvenIds(js) {
        assert P - ProvenIds(rest) == {j.keyId};
        assert LastRoot(js, P, j.keyId);
      }
    }
  }

  /** `m'` is `m` without exactly the keys of `gone`. */
  ghost predicate Minus<V>(m': map<KeyId, V>, m: map<KeyId, V>, gone: set<KeyId>) {
    && (forall k :: k in m' <==> k in m && k !in gone)
    && (forall k :: k in m' ==> m'[k] == m[k])
  }

  ghost predicate Removes(c: Claims, gone: set<KeyId>, r: Claims) {
    && Minus(r.pins, c.pins, gone)
    && (forall k :: k in r.tombs <==> k in c.tombs || k in gone)
    && Minus(r.admissions, c.admissions, gone)
  }

  lemma RevokeLive(c: Claims, gone: set<KeyId>, r: Claims, k: KeyId, at: string)
    requires Removes(c, gone, r) && !(k in r.pins && |r.pins| == 1)
    ensures Removes(c, gone + {k}, RevokeStep(r, Revoked(k, at)))
  {
  }

  lemma RevokeLast(c: Claims, R: set<KeyId>, r: Claims, k: KeyId)
    requires Removes(c, R, r) && k in r.pins
    ensures |r.pins| == 1 <==> c.pins.Keys - R == {k}
  {
    SinglePin(r.pins, k);
    assert r.pins.Keys == c.pins.Keys - R;
  }

  /** The pass removes, tombstones and forgets exactly the ids of R other than the spared pin. */
  lemma {:induction false} RevocationsRemove(js: seq<Judgement>, c: Claims)
    ensures Removes(c, ProvenIds(js) - Spared(js, c.pins.Keys), Revocations(js, c))
    ensures Revocations(js, c).advisory == c.advisory + AdvisoryIds(js)
  {
    if js != [] {
      var rest, j := js[..|js| - 1], js[|js| - 1];
      RevocationsRemove(rest, c);
      if j.Revoked? {
        RevocationsRemoveStep(js, rest, c);
      } else {
        assert ProvenIds(js) - Spared(js, c.pins.Keys) == ProvenIds(rest) - Spared(rest, c.pins.Keys);
      }
    }
  }

  lemma SparedStep(js: seq<Judgement>, rest: seq<Judgement>, k: KeyId, P: set<KeyId>)
    requires js != [] && rest == js[..|js| - 1] && js[|js| - 1].Revoked? && js[|js| - 1].keyId == k
    ensures
      var gone := ProvenIds(rest) - Spared(rest, P);
      ProvenIds(js) - Spared(js, P) == if P - gone == {k} then gone else gone + {k}
  {
    SparedMeaning(rest, P);
    var gone := ProvenIds(rest) - Spared(rest, P);
    if k in Spared(js, P) {
      assert P - gone == {k};
      assert ProvenIds(js) - Spared(js, P) == gone;
    } else {
      assert ProvenIds(js) - Spared(js, P) == gone + {k};
      assert P - gone != {k};
    }
  }

  /** One proven revocation removes its id, unless it is the only pin left. */
  lemma RevokeOne(c: Claims, gone: set<KeyId>, r: Claims, k: KeyId, at: string)
    requires Removes(c, gone, r)
    ensures Removes(c, if c.pins.Keys - gone == {k} then gone else gone + {k}, RevokeStep(r, Revoked(k, at)))
  {
    if k in r.pins { RevokeLast(c, gone, r, k); }
    if c.pins.Keys - gone == {k} {
      assert k in r.pins;
    } else {
      RevokeLive(c, gone, r, k, at);
    }
  }

  lemma RevocationsRemoveStep(js: seq<Judgement>, rest: seq<Judgement>, c: Claims)
    requires js != [] && js[|js| - 1].Revoked? && rest == js[..|js| - 1]
    requires Removes(c, ProvenIds(rest) - Spared(rest, c.pins.Keys), Revocations(rest, c))
    ensures Removes(c, ProvenIds(js) - Spared(js, c.pins.Keys), Revocations(js, c))
  {
    var j, P := js[|js| - 1], c.pins.Keys;
    SparedStep(js, rest, j.keyId, P);
    RevokeOne(c, ProvenIds(rest) - Spared(rest, P), Revocations(rest, c), j.keyId, j.at);
  }

  /** With P the pins and R the ids with a proven revocation: if P is not inside R the
      pass leaves exactly P - R pinned and tombstones all of R, whatever the order; if
      P is nonempty and inside R exactly one pin survives, the one whose proof came
      last, and every other id of R is tombstoned. Unproven claims only enter the
      advisory set. */
  lemma RevocationOutcome(js: seq<Judgement>, c: Claims)
    ensures
      var P, R, r := c.pins.Keys, ProvenIds(js), Revocations(js, c);
      && (!(P <= R) || P == {} ==> Removes(c, R, r))
      && (P != {} && P <= R ==>
            exists s :: s in c.pins && LastRoot(js, P, s) && Removes(c, R - {s}, r) && r.pins.Keys == {s})
      && r.advisory == c.advisory + AdvisoryIds(js)
  {
    var P, R, S, r := c.pins.Keys, ProvenIds(js), Spared(js, c.pins.Keys), Revocations(js, c);
    SparedMeaning(js, P);
    RevocationsRemove(js, c);
    if P != {} && P <= R {
      var s :| S == {s} && s in P && s in R && LastRoot(js, P, s);
      assert forall k :: k in r.pins <==> k == s;
      assert Removes(c, R - {s}, r);
    } else {
      assert R - S == R;
    }
  }

  /** An id still neither tombstoned nor the sole pin after a prefix has no proven revocation in it. */
  lemma UntombedIsUnproven(js: seq<Judgement>, c: Claims, k: KeyId)
    requires k !in Revocations(js, c).tombs
    requires !(k in Revocations(js, c).pins && |Revocations(js, c).pins| == 1)
    ensures k !in ProvenIds(js)
  {
    SparedMeaning(js, c.pins.Keys);
    RevocationsRemove(js, c);
    if k in ProvenIds(js) {
      assert k in Spared(js, c.pins.Keys);
      assert Revocations(js, c).pins.Keys == {k};
      SinglePin(Revocations(js, c).pins, k);
    }
  }

  /** A new tombstone carries the time of the first proven revocation of its id; an old one keeps its time. */
  lemma {:induction false} TombstoneTime(js: seq<Judgement>, c: Claims, k: KeyId)
    requires k in Revocations(js, c).tombs
    ensures k in c.tombs ==> Revocations(js, c).tombs[k] == c.tombs[k]
    ensures k !in c.tombs ==> FirstProof(js, k, Revocations(js, c).tombs[k])
  {
    if js != [] {
      var rest, j := js[..|js| - 1], js[|js| - 1];
      RevocationsRemove(rest, c);
      if k in Revocations(rest, c).tombs {
        TombstoneTime(rest, c, k);
        if k !in c.tombs { FirstProofExtends(js, k, Revocations(rest, c).tombs[k]); }
      } else {
        assert j == Revoked(k, Revocations(js, c).tombs[k]);
        UntombedIsUnproven(rest, c, k);
      }
    }
  }

  /** The first proven revocation of `k` names the time `at`. */
  ghost predicate FirstProof(js: seq<Judgement>, k: KeyId, at: string) {
    exists i :: 0 <= i < |js| && js[i] == Revoked(k, at) && k !in ProvenIds(js[..i])
  }

  lemma FirstProofExtends(js: seq<Judgement>, k: KeyId, at: string)
    requires js != [] && FirstProof(js[..|js| - 1], k, at)
    ensures FirstProof(js, k, at)
  {
    var rest := js[..|js| - 1];
    var i :| 0 <= i < |rest| && rest[i] == Revoked(k, at) && k !in ProvenIds(rest[..i]);
    assert rest[..i] == js[..i] && js[i] == rest[i];
  }

  /** Some entry is a signed un-revoke of `k` bound to the tombstone time `at`. */
  ghost predicate UnrevokedBy(poll: Poll, auth: map<KeyId, PublicKey>, entries: seq<Entry>, k: KeyId, at: string) {
    exists e :: e in entries && e.keyId == k && Unrevokes(poll, auth, e, at)
  }

  /** A tombstone is cleared exactly when some entry is a signed un-revoke bound to that tombstone's own time. */
  lemma {:induction false} UnrevokeOutcome(poll: Poll, auth: map<KeyId, PublicKey>, entries: seq<Entry>, tombs: map<KeyId, string>, k: KeyId)
    ensures var r := ClearTombs(poll, auth, entries, tombs);
      && (k in r <==> k in tombs && !UnrevokedBy(poll, auth, entries, k, tombs[k]))
      && (k in r ==> r[k] == tombs[k])
  {
    if entries != [] {
      var rest, e := entries[..|entries| - 1], entries[|entries| - 1];
      UnrevokeOutcome(poll, auth, rest, tombs, k);
      if k in tombs { UnrevokedByPrefix(poll, auth, entries, k, tombs[k]); }
    }
  }

  lemma UnrevokedByPrefix(poll: Poll, auth: map<KeyId, PublicKey>, entries: seq<Entry>, k: KeyId, at: string)
    requires entries != []
    ensures var rest, e := entries[..|entries| - 1], entries[|entries| - 1];
      UnrevokedBy(poll, auth, entries, k, at)
      <==> UnrevokedBy(poll, auth, rest, k, at) || (e.keyId == k && Unrevokes(poll, auth, e, at))
  {
    var rest, e := entries[..|entries| - 1], entries[|entries| - 1];
    assert entries == rest + [e];
    assert e in entries;
  }

  // ---------------------------------------------------------------------
  // Endorsement: what is admitted, and only that
  // ---------------------------------------------------------------------

  /** `S` holds every (id, key) that an unblocked entry's valid endorsement by a member of `S` admits. */
  ghost predicate EndorsementClosed(poll: Poll, entries: seq<Entry>, blocked: set<KeyId>, S: set<Pin>) {
    forall e, p :: e in entries && (e.endorsedBy, p) in S && e.keyId !in blocked && ValidEndorsement(poll, e, p)
      ==> (e.keyId, e.publicKey) in S
  }

  ghost predicate Within(m: map<KeyId, PublicKey>, S: set<Pin>) {
    forall k :: k in m ==> (k, m[k]) in S
  }

  ghost predicate Extends(big: map<KeyId, PublicKey>, small: map<KeyId, PublicKey>) {
    forall k :: k in small ==> k in big && big[k] == small[k]
  }

  ghost predicate Supplied(entries: seq<Entry>, k: KeyId, p: PublicKey) {
    exists e :: e in entries && e.keyId == k && e.publicKey == p
  }

  lemma {:induction false} EndorseFrame(poll: Poll, entries: seq<Entry>, c: Claims)
    ensures var r := Endorse(poll, entries, c);
      && Extends(r.pins, c.pins) && r.tombs == c.tombs && r.advisory == c.advisory
      && (forall k :: k in r.pins && k !in c.pins ==>
            k !in c.tombs && k !in c.advisory && Supplied(entries, k, r.pins[k]))
      && (forall k :: k in c.admissions ==> k in r.admissions)
      && (forall k :: k in r.admissions ==> k in c.admissions || k in r.pins)
  {
    if entries != [] {
      var rest, e := entries[..|entries| - 1], entries[|entries| - 1];
      EndorseFrame(poll, rest, c);
      var r', r := Endorse(poll, rest, c), Endorse(poll, entries, c);
      forall k | k in r.pins && k !in c.pins
        ensures k !in c.tombs && k !in c.advisory && Supplied(entries, k, r.pins[k])
      {
        if k in r'.pins {
          assert Supplied(rest, k, r'.pins[k]);
          var x :| x in rest && x.keyId == k && x.publicKey == r'.pins[k];
          assert x in entries;
        } else {
          assert e in entries;
        }
      }
    }
  }

  /** Every pin the endorsement pass adds lies in the closure of the pins it started from. */
  lemma {:induction false} EndorseSound(poll: Poll, entries: seq<Entry>, all: seq<Entry>, c: Claims, S: set<Pin>)
    requires forall e :: e in entries ==> e in all
    requires EndorsementClosed(poll, all, c.pins.Keys + c.tombs.Keys + c.advisory, S) && Within(c.pins, S)
    ensures Within(Endorse(poll, entries, c).pins, S)
  {
    if entries != [] {
      var rest, e := entries[..|entries| - 1], entries[|entries| - 1];
      EndorseSound(poll, rest, all, c, S);
      EndorseFrame(poll, rest, c);
      var r' := Endorse(poll, rest, c);
      if Endorsable(poll, r', e) {
        assert e in all && (e.endorsedBy, r'.pins[e.endorsedBy]) in S;
      }
    }
  }

  /** No entry is left that a pinned key's endorsement would admit. */
  ghost predicate Saturated(poll: Poll, entries: seq<Entry>, c: Claims) {
    forall e :: e in entries ==> !Endorsable(poll, c, e)
  }

  lemma {:induction false} SaturatedStays(poll: Poll, entries: seq<Entry>, c: Claims)
    requires Saturated(poll, entries, c)
    ensures Endorse(poll, entries, c) == c
  {
    if entries != [] {
      var rest := entries[..|entries| - 1];
      SaturatedStays(poll, rest, c);
      assert entries[|entries| - 1] in entries;
    }
  }

  /** An admissible entry makes the pass pin an id that was not pinned before. */
  lemma {:induction false} EndorseProgress(poll: Poll, entries: seq<Entry>, c: Claims, i: nat)
    requires i < |entries| && Endorsable(poll, c, entries[i])
    ensures entries[i].keyId in Endorse(poll, entries, c).pins
  {
    var n := |entries| - 1;
    EndorseFrame(poll, entries[..n], c);
    if i < n {
      EndorseProgress(poll, entries[..n], c, i);
    }
  }

  // ---------------------------------------------------------------------
  // Convergence of repeated polls on one list
  // ---------------------------------------------------------------------

  function SyncTimes(poll: Poll, entries: seq<Entry>, t: Trust, n: nat): Trust {
    if n == 0 then t else Sync(poll, entries, SyncTimes(poll, entries, t, n - 1))
  }

  predicate NoClaims(entries: seq<Entry>) {
    forall e :: e in entries ==> !e.revoked && e.unrevokeSig == ""
  }

  ghost predicate DistinctIds(entries: seq<Entry>) {
    forall i, j :: 0 <= i < j < |entries| ==> entries[i].keyId != entries[j].keyId
  }

  function PlainClaims(t: Trust): Claims {
    Claims(t.pins, t.tombs, t.admissions, {})
  }

  lemma {:induction false} NoClaimsNoChange(poll: Poll, auth: map<KeyId, PublicKey>, entries: seq<Entry>, c: Claims)
    requires NoClaims(entries)
    ensures ClearTombs(poll, auth, entries, c.tombs) == c.tombs
    ensures Revocations(Judged(poll, auth, entries), c) == c
  {
    if entries != [] {
      var rest := entries[..|entries| - 1];
      NoClaimsNoChange(poll, auth, rest, c);
      assert Judged(poll, auth, entries)[..|entries| - 1] == Judged(poll, auth, rest);
      assert entries[|entries| - 1] in entries;
    }
  }

  lemma SyncIsEndorse(poll: Poll, entries: seq<Entry>, t: Trust)
    requires NoClaims(entries) && t.pins != map[]
    ensures var r := Endorse(poll, entries, PlainClaims(t));
      Sync(poll, entries, t) == Trust(r.pins, t.tombs, r.admissions, t.tofu) && r.pins != map[]
  {
    NoClaimsNoChange(poll, t.pins, entries, PlainClaims(t));
    EndorseFrame(poll, entries, PlainClaims(t));
    var k :| k in t.pins;
    assert k in Endorse(poll, entries, PlainClaims(t)).pins;
  }

  ghost function Missing(entries: seq<Entry>, t: Trust): set<KeyId> {
    (set e | e in entries :: e.keyId) - t.pins.Keys
  }

  lemma {:induction false} IdsBounded(entries: seq<Entry>)
    ensures |set e | e in entries :: e.keyId| <= |entries|
  {
    if entries != [] {
      var rest, e := entries[..|entries| - 1], entries[|entries| - 1];
      IdsBounded(rest);
      assert entries == rest + [e];
      assert (set x | x in entries :: x.keyId) == (set x | x in rest :: x.keyId) + {e.keyId};
    }
  }

  lemma SmallerSet(a: set<KeyId>, b: set<KeyId>)
    requires a <= b
    ensures |a| <= |b| && (a != b ==> |a| < |b|)
  {
    assert b == a + (b - a);
    assert |b| == |a| + |b - a|;
  }

  /** What further polls never undo: no id pinned at the start is lost or re-keyed, and a
      new one is an untombstoned id with the key some entry gives it. */
  ghost predicate Grown(entries: seq<Entry>, t: Trust, u: Trust) {
    && u.tombs == t.tombs && u.tofu == t.tofu && Extends(u.pins, t.pins)
    && (forall k :: k in u.pins && k !in t.pins ==> k !in t.tombs && Supplied(entries, k, u.pins[k]))
  }

  lemma PollGrows(poll: Poll, entries: seq<Entry>, t: Trust)
    requires NoClaims(entries) && t.pins != map[]
    ensures Grown(entries, t, Sync(poll, entries, t)) && Sync(poll, entries, t).pins != map[]
    ensures |Missing(entries, Sync(poll, entries, t))| <= |Missing(entries, t)|
    ensures if Saturated(poll, entries, PlainClaims(t)) then Sync(poll, entries, t) == t
            else |Missing(entries, Sync(poll, entries, t))| < |Missing(entries, t)|
  {
    var u := Sync(poll, entries, t);
    SyncIsEndorse(poll, entries, t);
    EndorseFrame(poll, entries, PlainClaims(t));
    SmallerSet(Missing(entries, u), Missing(entries, t));
    if Saturated(poll, entries, PlainClaims(t)) {
      SaturatedStays(poll, entries, PlainClaims(t));
    } else {
      var e :| e in entries && Endorsable(poll, PlainClaims(t), e);
      var i :| 0 <= i < |entries| && entries[i] == e;
      EndorseProgress(poll, entries, PlainClaims(t), i);
      assert e.keyId in Missing(entries, t) && e.keyId !in Missing(entries, u);
    }
  }

  lemma {:induction false} PollsProgress(poll: Poll, entries: seq<Entry>, t: Trust, n: nat)
    requires NoClaims(entries) && t.pins != map[]
    ensures var u := SyncTimes(poll, entries, t, n);
      && u.pins != map[] && Grown(entries, t, u)
      && (Saturated(poll, entries, PlainClaims(u)) || |Missing(entries, u)| + n <= |Missing(entries, t)|)
  {
    hide Sync, Saturated, Missing;
    if n > 0 {
      var u' := SyncTimes(poll, entries, t, n - 1);
      PollsProgress(poll, entries, t, n - 1);
      PollGrows(poll, entries, u');
      GrownChains(entries, t, u', Sync(poll, entries, u'));
    }
  }

  lemma GrownChains(entries: seq<Entry>, t: Trust, u: Trust, v: Trust)
    requires Grown(entries, t, u) && Grown(entries, u, v)
    ensures Grown(entries, t, v)
  {
  }

  lemma NoneMissing(poll: Poll, entries: seq<Entry>, u: Trust)
    requires NoClaims(entries)
    ensures |Missing(entries, u)| == 0 ==> Saturated(poll, entries, PlainClaims(u))
  {
    forall e | e in entries && Endorsable(poll, PlainClaims(u), e) ensures |Missing(entries, u)| > 0 {
      assert e.keyId in Missing(entries, u);
    }
  }

  lemma ClosedUnlessBlocked(poll: Poll, entries: seq<Entry>, blocked: set<KeyId>, more: set<KeyId>, S: set<Pin>)
    requires EndorsementClosed(poll, entries, blocked, S) && blocked <= more
    ensures EndorsementClosed(poll, entries, more, S)
  {
  }

  lemma PollStaysInClosure(poll: Poll, entries: seq<Entry>, t: Trust, u: Trust, S: set<Pin>)
    requires EndorsementClosed(poll, entries, t.pins.Keys + t.tombs.Keys, S)
    requires Within(u.pins, S) && Extends(u.pins, t.pins) && u.tombs == t.tombs
    ensures Within(Endorse(poll, entries, PlainClaims(u)).pins, S)
  {
    assert forall k :: k in t.pins ==> k in u.pins;
    ClosedUnlessBlocked(poll, entries, t.pins.Keys + t.tombs.Keys, u.pins.Keys + u.tombs.Keys + {}, S);
    EndorseSound(poll, entries, entries, PlainClaims(u), S);
  }

  lemma NextPollInClosure(poll: Poll, entries: seq<Entry>, t: Trust, u: Trust, S: set<Pin>)
    requires NoClaims(entries) && EndorsementClosed(poll, entries, t.pins.Keys + t.tombs.Keys, S)
    requires Within(u.pins, S) && Grown(entries, t, u) && u.pins != map[]
    ensures Within(Sync(poll, entries, u).pins, S)
  {
    hide Sync, EndorsementClosed, Endorse, Within;
    SyncIsEndorse(poll, entries, u);
    PollStaysInClosure(poll, entries, t, u, S);
  }

  lemma {:induction false} PollsStayInClosure(poll: Poll, entries: seq<Entry>, t: Trust, n: nat, S: set<Pin>)
    requires NoClaims(entries) && t.pins != map[]
    requires EndorsementClosed(poll, entries, t.pins.Keys + t.tombs.Keys, S) && Within(t.pins, S)
    ensures Within(SyncTimes(poll, entries, t, n).pins, S)
  {
    hide Sync, Saturated, Missing, EndorsementClosed, Grown, Within, NoClaims;
    if n > 0 {
      PollsStayInClosure(poll, entries, t, n - 1, S);
      PollsProgress(poll, entries, t, n - 1);
      NextPollInClosure(poll, entries, t, SyncTimes(poll, entries, t, n - 1), S);
    }
  }

  /** Within as many polls as the list has entries, the pins are exactly the least set
      that holds the first pins and is closed under valid endorsements of ids neither
      pinned at the start nor tombstoned; and further polls change nothing. */
  lemma EndorsementConverges(poll: Poll, entries: seq<Entry>, t: Trust)
    requires NoClaims(entries) && DistinctIds(entries) && t.pins != map[]
    ensures
      var blocked := t.pins.Keys + t.tombs.Keys;
      var u := SyncTimes(poll, entries, t, |entries|);
      && EndorsementClosed(poll, entries, blocked, u.pins.Items)
      && Within(t.pins, u.pins.Items)
      && (forall S :: EndorsementClosed(poll, entries, blocked, S) && Within(t.pins, S) ==> Within(u.pins, S))
      && Sync(poll, entries, u) == u
  {
    var n := |entries|;
    var blocked := t.pins.Keys + t.tombs.Keys;
    var u := SyncTimes(poll, entries, t, n);
    PollsProgress(poll, entries, t, n);
    IdsBounded(entries);
    SmallerSet(Missing(entries, t), set e | e in entries :: e.keyId);
    NoneMissing(poll, entries, u);
    PollGrows(poll, entries, u);
    forall S | EndorsementClosed(poll, entries, blocked, S) && Within(t.pins, S) ensures Within(u.pins, S) {
      PollsStayInClosure(poll, entries, t, n, S);
    }
    forall e, p | e in entries && (e.endorsedBy, p) in u.pins.Items && e.keyId !in blocked && ValidEndorsement(poll, e, p)
      ensures (e.keyId, e.publicKey) in u.pins.Items
    {
      assert !Endorsable(poll, PlainClaims(u), e);
      assert e.keyId in u.pins;
      assert Supplied(entries, e.keyId, u.pins[e.keyId]);
      var x :| x in entries && x.keyId == e.keyId && x.publicKey == u.pins[e.keyId];
      assert x == e;
    }
  }

  /** Two orderings of one list converge to the same pins. */
  lemma OrderIndependent(poll: Poll, a: seq<Entry>, b: seq<Entry>, t: Trust)
    requires NoClaims(a) && DistinctIds(a) && DistinctIds(b) && t.pins != map[]
    requires multiset(a) == multiset(b)
    ensures SyncTimes(poll, a, t, |a|).pins == SyncTimes(poll, b, t, |b|).pins
  {
    assert forall e :: e in a ==> e in multiset(a);
    assert forall e :: e in b ==> e in multiset(b);
    var blocked := t.pins.Keys + t.tombs.Keys;
    var u, v := SyncTimes(poll, a, t, |a|).pins, SyncTimes(poll, b, t, |b|).pins;
    EndorsementConverges(poll, a, t);
    EndorsementConverges(poll, b, t);
    ClosedUnderSameEntries(poll, b, a, blocked, v.Items);
    ClosedUnderSameEntries(poll, a, b, blocked, u.Items);
    SamePins(u, v);
  }

  lemma ClosedUnderSameEntries(poll: Poll, a: seq<Entry>, b: seq<Entry>, blocked: set<KeyId>, S: set<Pin>)
    requires EndorsementClosed(poll, a, blocked, S) && forall e :: e in b ==> e in a
    ensures EndorsementClosed(poll, b, blocked, S)
  {
  }

  lemma SamePins(u: map<KeyId, PublicKey>, v: map<KeyId, PublicKey>)
    requires Within(u, v.Items) && Within(v, u.Items)
    ensures u == v
  {
    assert forall k :: k in u ==> (k, u[k]) in v.Items;
    assert forall k :: k in v ==> (k, v[k]) in u.Items;
  }
}
