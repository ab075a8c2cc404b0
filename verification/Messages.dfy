/** Inbox messages, the identity of a held message, and verdicts bound to it.

    A message that canonicalizes has a digest built injectively from everything it
    says; one that does not has a token of its own object. */
module Messages {
  import opened OrderedMaps

  datatype SenderKind = Operator | Peer

  datatype Content = Json(payload: string) | Unserializable(token: nat)

  datatype Message = Message(id: string, conversation: string, sender: string, kind: SenderKind, content: Content)

  datatype Digest =
    | Canonical(id: string, conversation: string, sender: string, kind: SenderKind, payload: string)
    | Uncomparable(token: nat)

  /** Message id and digest of the canonical material: what a held message is keyed by. */
  datatype HeldKey = HeldKey(digest: Digest, id: string)

  datatype Verdict = Verdict(verified: bool, reason: string)

  type Generation = string
  type Verdicts = map<HeldKey, Option<Verdict>>

  function MaterialDigest(m: Message): Digest {
    match m.content
    case Json(payload) => Canonical(m.id, m.conversation, m.sender, m.kind, payload)
    case Unserializable(token) => Uncomparable(token)
  }

  function KeyOf(m: Message): HeldKey {
    HeldKey(MaterialDigest(m), m.id)
  }

  function KeysOf(ms: seq<Message>): (ks: seq<HeldKey>)
    ensures |ks| == |ms| && forall i :: 0 <= i < |ms| ==> ks[i] == KeyOf(ms[i])
  {
    seq(|ms|, i requires 0 <= i < |ms| => KeyOf(ms[i]))
  }

  /** An equal key is equal material: nothing about a comparable message can differ under it. */
  lemma KeyIdentifies(a: Message, b: Message)
    requires KeyOf(a) == KeyOf(b) && a.content.Json?
    ensures a == b
  {
  }

  predicate SameSignedMaterial(a: Message, b: Message) {
    !MaterialDigest(a).Uncomparable? && MaterialDigest(a) == MaterialDigest(b)
  }

  predicate Passing(v: Option<Verdict>) {
    v.Some? && v.value.verified
  }

  function VerdictFor(vs: Verdicts, m: Message): Option<Verdict> {
    if KeyOf(m) in vs then vs[KeyOf(m)] else None
  }

  // ---------------------------------------------------------------------
  // One batch's verdicts
  // ---------------------------------------------------------------------

  /** The id-keyed map verification fills in batch order: of two messages claiming one id the later wins. */
  function VerdictsById(batch: seq<Message>, results: seq<Option<Verdict>>): (r: map<string, Option<Verdict>>)
    requires |batch| == |results|
    ensures forall id :: id in r <==> exists m :: m in batch && m.id == id
  {
    if batch == [] then map[]
    else
      var n := |batch| - 1;
      assert batch == batch[..n] + [batch[n]];
      VerdictsById(batch[..n], results[..n])[batch[n].id := results[n]]
  }

  lemma {:induction false} VerdictsByIdMeaning(batch: seq<Message>, results: seq<Option<Verdict>>, id: string)
    requires |batch| == |results| && id in VerdictsById(batch, results)
    ensures exists i :: 0 <= i < |batch| && batch[i].id == id && results[i] == VerdictsById(batch, results)[id]
  {
    var n := |batch| - 1;
    if batch[n].id != id {
      VerdictsByIdMeaning(batch[..n], results[..n], id);
      var i :| 0 <= i < n && batch[..n][i].id == id && results[..n][i] == VerdictsById(batch[..n], results[..n])[id];
      assert batch[i].id == id && results[i] == VerdictsById(batch, results)[id];
    }
  }

  /** Two different messages of the batch claim this key's id. */
  predicate Contested(batch: seq<Message>, k: HeldKey) {
    exists m :: m in batch && m.id == k.id && KeyOf(m) != k
  }

  /** What a batch's id-keyed verdicts say of one identity; a contested id is verdict for no one. */
  function VerdictOfKey(batch: seq<Message>, byId: map<string, Option<Verdict>>, k: HeldKey): Option<Verdict> {
    if Contested(batch, k) || k.id !in byId then None else byId[k.id]
  }

  /** The verdicts of `ms`, taken from `batch`, each bound to its message's identity. */
  function Bound(batch: seq<Message>, byId: map<string, Option<Verdict>>, ms: seq<Message>): (r: Verdicts)
    ensures forall m :: m in ms ==> KeyOf(m) in r
    ensures forall k :: k in r ==> r[k] == VerdictOfKey(batch, byId, k)
    ensures forall k :: k in r ==> exists m :: m in ms && KeyOf(m) == k
  {
    if ms == [] then map[]
    else
      var n := |ms| - 1;
      var rest := Bound(batch, byId, ms[..n]);
      assert ms == ms[..n] + [ms[n]];
      rest[KeyOf(ms[n]) := VerdictOfKey(batch, byId, KeyOf(ms[n]))]
  }

  function BatchVerdicts(batch: seq<Message>, byId: map<string, Option<Verdict>>): Verdicts {
    Bound(batch, byId, batch)
  }

  /** The distinct message identities claiming `id`. */
  function Claimants(batch: seq<Message>, id: string): set<HeldKey> {
    set m | m in batch && m.id == id :: KeyOf(m)
  }

  /** The admission map: the verdicts verification computed, overridden by durable rejections. */
  function Admission(batch: seq<Message>, results: seq<Option<Verdict>>, rejected: map<string, Verdict>): map<string, Option<Verdict>>
    requires |batch| == |results|
  {
    VerdictsById(batch, results) + map id | id in rejected :: Some(rejected[id])
  }

  method BatchVerdictsByHeldKey(batch: seq<Message>, byId: map<string, Option<Verdict>>) returns (out: Verdicts)
    ensures out == BatchVerdicts(batch, byId)
  {
    var digestsById := CollectClaimants(batch);
    out := map[];
    for i := 0 to |batch|
      invariant out == Bound(batch, byId, batch[..i])
    {
      var m := batch[i];
      ManyClaimants(batch, m);
      assert batch[..i + 1][..i] == batch[..i];
      out := out[KeyOf(m) := if |digestsById[m.id]| > 1 || m.id !in byId then None else byId[m.id]];
    }
    assert batch[..|batch|] == batch;
  }

  method CollectClaimants(batch: seq<Message>) returns (digestsById: map<string, set<HeldKey>>)
    ensures forall m :: m in batch ==> m.id in digestsById && digestsById[m.id] == Claimants(batch, m.id)
  {
    digestsById := map[];
    for i := 0 to |batch|
      invariant forall id :: id in digestsById ==> digestsById[id] == Claimants(batch[..i], id)
      invariant forall id :: id !in digestsById ==> Claimants(batch[..i], id) == {}
    {
      var m := batch[i];
      var sofar := if m.id in digestsById then digestsById[m.id] else {};
      assert batch[..i + 1] == batch[..i] + [m];
      assert forall id :: Claimants(batch[..i + 1], id) == Claimants(batch[..i], id) + (if id == m.id then {KeyOf(m)} else {});
      digestsById := digestsById[m.id := sofar + {KeyOf(m)}];
    }
    assert batch[..|batch|] == batch;
    forall m | m in batch ensures m.id in digestsById {
      assert KeyOf(m) in Claimants(batch, m.id);
    }
  }

  lemma ManyClaimants(batch: seq<Message>, m: Message)
    requires m in batch
    ensures |Claimants(batch, m.id)| > 1 <==> Contested(batch, KeyOf(m))
  {
    var k, ks := KeyOf(m), Claimants(batch, m.id);
    assert k in ks;
    assert |ks - {k}| == |ks| - 1;
    if o :| o in batch && o.id == m.id && KeyOf(o) != k {
      assert KeyOf(o) in ks - {k};
    }
    if |ks| > 1 {
      var o :| o in ks - {k};
      assert o in ks;
    }
  }

  /** A verdict bound to a message identity was computed on exactly that identity in this batch. */
  lemma BoundVerdictIsComputed(batch: seq<Message>, results: seq<Option<Verdict>>, k: HeldKey)
    requires |batch| == |results|
    requires k in BatchVerdicts(batch, VerdictsById(batch, results))
    requires BatchVerdicts(batch, VerdictsById(batch, results))[k].Some?
    ensures exists i :: 0 <= i < |batch| && KeyOf(batch[i]) == k
                     && results[i] == BatchVerdicts(batch, VerdictsById(batch, results))[k]
  {
    var byId := VerdictsById(batch, results);
    VerdictsByIdMeaning(batch, results, k.id);
    var i :| 0 <= i < |batch| && batch[i].id == k.id && results[i] == byId[k.id];
    assert batch[i] in batch;
    assert !Contested(batch, k);
  }

  /** Verification of `key`'s own material under `generation` answered `verdict`. */
  datatype Computed = Computed(generation: Generation, key: HeldKey, verdict: Verdict)

  ghost function ComputedIn(gen: Generation, batch: seq<Message>, results: seq<Option<Verdict>>): set<Computed>
    requires |batch| == |results|
  {
    set i | 0 <= i < |batch| && results[i].Some? :: Computed(gen, KeyOf(batch[i]), results[i].value)
  }

  lemma UncontestedAdmission(batch: seq<Message>, results: seq<Option<Verdict>>, rejected: map<string, Verdict>, k: HeldKey)
    requires |batch| == |results| && forall id :: id in rejected ==> !rejected[id].verified
    requires k in BatchVerdicts(batch, Admission(batch, results, rejected))
    requires Passing(BatchVerdicts(batch, Admission(batch, results, rejected))[k])
    ensures k in BatchVerdicts(batch, VerdictsById(batch, results))
    ensures BatchVerdicts(batch, VerdictsById(batch, results))[k] == BatchVerdicts(batch, Admission(batch, results, rejected))[k]
  {
    var byId := VerdictsById(batch, results);
    assert k.id !in rejected;
    assert Admission(batch, results, rejected)[k.id] == byId[k.id];
    var m :| m in batch && KeyOf(m) == k;
  }

  /** A durable rejection never passes, so a passing verdict bound to an identity is one verification
      computed on exactly that identity. */
  lemma PassIsComputed(gen: Generation, batch: seq<Message>, results: seq<Option<Verdict>>, rejected: map<string, Verdict>, k: HeldKey)
    requires |batch| == |results| && forall id :: id in rejected ==> !rejected[id].verified
    requires k in BatchVerdicts(batch, Admission(batch, results, rejected))
    requires Passing(BatchVerdicts(batch, Admission(batch, results, rejected))[k])
    ensures Computed(gen, k, BatchVerdicts(batch, Admission(batch, results, rejected))[k].value) in ComputedIn(gen, batch, results)
  {
    UncontestedAdmission(batch, results, rejected, k);
    BoundVerdictIsComputed(batch, results, k);
  }
}
