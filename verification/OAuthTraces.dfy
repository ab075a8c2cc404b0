/** Traces of the OAuth server: every grant is spent once, every stored token belongs to a registered client
    and leads back to a consent given with the operator's password and a matching PKCE verifier. */
module OAuthTraces {
  import opened OrderedMaps
  import opened OAuthModel

  // ---------------------------------------------------------------------
  // History
  // ---------------------------------------------------------------------

  function SpentOn(e: Entry): Grant {
    match e
    case CodeIssued(nonce, _, _, _) => ConsentGrant(nonce)
    case PairIssued(g, _, _, _, _, _, _) => g
  }

  function GrantString(g: Grant): string {
    match g
    case ConsentGrant(s) => s
    case CodeGrant(s) => s
    case RefreshGrant(s) => s
  }

  ghost predicate Unspent(log: seq<Entry>, g: Grant) {
    forall i :: 0 <= i < |log| ==> SpentOn(log[i]) != g
  }

  ghost predicate Once(log: seq<Entry>) {
    forall i, j :: 0 <= i < j < |log| ==> SpentOn(log[i]) != SpentOn(log[j])
  }

  /** Entry `m` issued the code that `e` redeemed, to the same client, and `e` showed its verifier. */
  ghost predicate Redeems(s256: string -> string, m: Entry, e: Entry) {
    && m.CodeIssued? && e.PairIssued? && e.grant == CodeGrant(m.code)
    && m.params.client == e.client && m.params.resource == e.resource && m.params.scope == e.scope
    && s256(e.verifier) == m.params.challenge
  }

  /** Entry `m` issued the refresh token that `e` rotated. */
  ghost predicate Rotates(m: Entry, e: Entry) {
    && m.PairIssued? && e.PairIssued? && e.grant == RefreshGrant(m.refresh)
    && m.client == e.client && m.resource == e.resource && m.scope == e.scope
  }

  /** Pair `n` was issued for a redeemed code, or by rotating a pair that was. */
  ghost predicate Rooted(s256: string -> string, log: seq<Entry>, n: nat)
    decreases n
  {
    && n < |log| && log[n].PairIssued?
    && ((exists m :: 0 <= m < n && Redeems(s256, log[m], log[n]))
        || (exists m :: 0 <= m < n && Rotates(log[m], log[n]) && Rooted(s256, log, m)))
  }

  lemma {:induction false} RootedExtends(s256: string -> string, log: seq<Entry>, more: seq<Entry>, n: nat)
    requires Rooted(s256, log, n)
    ensures Rooted(s256, log + more, n)
    decreases n
  {
    var all := log + more;
    assert all[n] == log[n];
    if m :| 0 <= m < n && Redeems(s256, log[m], log[n]) {
      assert Redeems(s256, all[m], all[n]);
    } else {
      var m :| 0 <= m < n && Rotates(log[m], log[n]) && Rooted(s256, log, m);
      RootedExtends(s256, log, more, m);
      assert Rotates(all[m], all[n]);
    }
  }

  /** The token `t` is one of the pair `e` issued. */
  ghost predicate Yields(e: Entry, t: Token) {
    && e.PairIssued? && e.client == t.client && e.resource == t.resource && e.scope == t.scope
    && t.hash == Sha256(if t.kind == Access then e.access else e.refresh)
  }

  ghost predicate Traced(s256: string -> string, log: seq<Entry>, t: Token) {
    exists n :: 0 <= n < |log| && Yields(log[n], t) && Rooted(s256, log, n)
  }

  ghost predicate IssuedFor(log: seq<Entry>, code: string, p: Params) {
    exists n :: 0 <= n < |log| && log[n].CodeIssued? && log[n].code == code && log[n].params == p
  }

  // ---------------------------------------------------------------------
  // The invariant
  // ---------------------------------------------------------------------

  ghost predicate Registered(cs: seq<Client>, id: string) {
    exists i :: 0 <= i < |cs| && cs[i].id == id
  }

  ghost predicate TokenOk(s256: string -> string, s: Server, t: Token) {
    && Registered(s.clients, t.client)
    && t.hash.of in s.drawn
    && Traced(s256, s.log, t)
    && (t.kind == Refresh ==> Unspent(s.log, RefreshGrant(t.hash.of)))
  }

  ghost predicate TokensOk(s256: string -> string, s: Server) {
    forall i :: 0 <= i < |s.tokens| ==> TokenOk(s256, s, s.tokens[i])
  }

  ghost predicate DistinctTokens(ts: seq<Token>) {
    forall i, j :: 0 <= i < j < |ts| ==> ts[i].hash != ts[j].hash
  }

  ghost predicate CodesOk(s: Server) {
    forall c :: c in s.codes ==> c in s.drawn && Unspent(s.log, CodeGrant(c)) && IssuedFor(s.log, c, s.codes[c].params)
  }

  ghost predicate ConsentsOk(s: Server) {
    s.consents.Valid() && forall n :: n in s.consents.at ==> n in s.drawn && Unspent(s.log, ConsentGrant(n))
  }

  ghost predicate LogOk(cfg: Config, s256: string -> string, s: Server) {
    && Once(s.log)
    && (forall i :: 0 <= i < |s.log| ==> GrantString(SpentOn(s.log[i])) in s.drawn)
    && (forall i :: 0 <= i < |s.log| && s.log[i].CodeIssued? ==> s.log[i].password == cfg.password)
    && (forall i :: 0 <= i < |s.log| && s.log[i].PairIssued? ==> Rooted(s256, s.log, i))
  }

  ghost predicate Bounded(s: Server) {
    |s.clients| <= MAX_CLIENTS && |s.tokens| <= MAX_TOKENS
  }

  ghost predicate Inv(cfg: Config, s256: string -> string, s: Server) {
    TokensOk(s256, s) && DistinctTokens(s.tokens) && CodesOk(s) && ConsentsOk(s) && LogOk(cfg, s256, s) && Bounded(s)
  }

  // ---------------------------------------------------------------------
  // Dropping tokens
  // ---------------------------------------------------------------------

  /** `a` has only elements of `b`, and is as distinct as `b` is. */
  ghost predicate Kept(a: seq<Token>, b: seq<Token>) {
    && (forall i :: 0 <= i < |a| ==> a[i] in b)
    && (DistinctTokens(b) ==> DistinctTokens(a))
    && |a| <= |b|
  }

  lemma SnocKept(a: seq<Token>, b: seq<Token>, t: Token, keep: bool, c: seq<Token>)
    requires Kept(a, b) && c == b + [t]
    ensures Kept(Carry(a, t, keep), c)
  {
    assert forall i :: 0 <= i < |b| ==> (b + [t])[i] == b[i];
    if DistinctTokens(b + [t]) {
      assert DistinctTokens(b) by {
        forall i, j | 0 <= i < j < |b| ensures b[i].hash != b[j].hash { assert (b + [t])[i].hash != (b + [t])[j].hash; }
      }
      forall i | 0 <= i < |a| ensures a[i].hash != t.hash {
        var k :| 0 <= k < |b| && b[k] == a[i];
        assert (b + [t])[k].hash != (b + [t])[|b|].hash;
      }
    }
  }

  lemma {:induction false} UnexpiredKept(ts: seq<Token>, now: int)
    ensures Kept(Unexpired(ts, now), ts)
  {
    if ts != [] {
      var init, last := ts[..|ts| - 1], ts[|ts| - 1];
      UnexpiredKept(init, now);
      SnocKept(Unexpired(init, now), init, last, last.expires > now, ts);
    }
  }

  lemma {:induction false} NotOfKept(ts: seq<Token>, client: string)
    ensures Kept(NotOf(ts, client), ts)
  {
    if ts != [] {
      var init, last := ts[..|ts| - 1], ts[|ts| - 1];
      NotOfKept(init, client);
      SnocKept(NotOf(init, client), init, last, last.client != client, ts);
    }
  }

  lemma {:induction false} NotOfGone(ts: seq<Token>, client: string)
    ensures forall i :: 0 <= i < |NotOf(ts, client)| ==> NotOf(ts, client)[i].client != client
  {
    if ts != [] { NotOfGone(ts[..|ts| - 1], client); }
  }

  lemma SuffixKept(ts: seq<Token>, n: nat)
    requires n <= |ts|
    ensures Kept(ts[n..], ts)
  {
  }

  lemma SpliceKept(ts: seq<Token>, n: nat, a: seq<Token>)
    requires n < |ts| && a == ts[..n] + ts[n + 1..]
    ensures Kept(a, ts)
    ensures DistinctTokens(ts) ==> forall i :: 0 <= i < |a| ==> a[i].hash != ts[n].hash
  {
    forall i | 0 <= i < |a| ensures a[i] == ts[if i < n then i else i + 1] && a[i] in ts {
    }
  }

  lemma KeptChain(a: seq<Token>, b: seq<Token>, c: seq<Token>)
    requires Kept(a, b) && Kept(b, c)
    ensures Kept(a, c)
  {
    forall i | 0 <= i < |a| ensures a[i] in c {
      var k :| 0 <= k < |b| && b[k] == a[i];
    }
  }

  lemma PrunedKept(ts: seq<Token>, now: int)
    ensures Kept(Pruned(ts, now), ts) && |Pruned(ts, now)| <= MAX_TOKENS
  {
    var u := Unexpired(ts, now);
    UnexpiredKept(ts, now);
    SuffixKept(u, |u| - |Pruned(ts, now)|);
    KeptChain(Pruned(ts, now), u, ts);
  }

  lemma KeptOk(s256: string -> string, s: Server, r: Server)
    requires TokensOk(s256, s) && Kept(r.tokens, s.tokens) && r.log == s.log && s.drawn <= r.drawn
    requires forall i :: 0 <= i < |r.tokens| ==> Registered(r.clients, r.tokens[i].client)
    ensures TokensOk(s256, r)
  {
    forall i | 0 <= i < |r.tokens| ensures TokenOk(s256, r, r.tokens[i]) {
      var k :| 0 <= k < |s.tokens| && s.tokens[k] == r.tokens[i];
      assert TokenOk(s256, s, s.tokens[k]);
    }
  }

  // ---------------------------------------------------------------------
  // Registration
  // ---------------------------------------------------------------------

  lemma AddClientInv(cfg: Config, s256: string -> string, s: Server, c: Client, now: int)
    requires Inv(cfg, s256, s) && |s.clients| < MAX_CLIENTS
    ensures Inv(cfg, s256, AddClient(s, c, now))
  {
    var r := AddClient(s, c, now);
    PrunedKept(s.tokens, now);
    forall i | 0 <= i < |r.tokens| ensures Registered(r.clients, r.tokens[i].client) {
      var k :| 0 <= k < |s.tokens| && s.tokens[k] == r.tokens[i];
      assert TokenOk(s256, s, s.tokens[k]);
      var j :| 0 <= j < |s.clients| && s.clients[j].id == s.tokens[k].client;
      assert r.clients[j] == s.clients[j];
    }
    KeptOk(s256, s, r);
  }

  lemma StillRegistered(cs: seq<Client>, i: nat, id: string)
    requires i < |cs| && cs[i].id != id && Registered(cs, id)
    ensures Registered(cs[..i] + cs[i + 1..], id)
  {
    var j :| 0 <= j < |cs| && cs[j].id == id;
    var rest := cs[..i] + cs[i + 1..];
    assert rest[if j < i then j else j - 1] == cs[j];
  }

  lemma RemoveClientInv(cfg: Config, s256: string -> string, s: Server, i: nat)
    requires Inv(cfg, s256, s) && i < |s.clients|
    ensures Inv(cfg, s256, RemoveClient(s, i)) && |RemoveClient(s, i).clients| < |s.clients|
  {
    var r, gone := RemoveClient(s, i), s.clients[i].id;
    NotOfKept(s.tokens, gone);
    NotOfGone(s.tokens, gone);
    forall n | 0 <= n < |r.tokens| ensures Registered(r.clients, r.tokens[n].client) {
      var k :| 0 <= k < |s.tokens| && s.tokens[k] == r.tokens[n];
      assert TokenOk(s256, s, s.tokens[k]);
      StillRegistered(s.clients, i, s.tokens[k].client);
    }
    KeptOk(s256, s, r);
  }

  lemma RegisterInv(cfg: Config, s256: string -> string, s: Server, body: Registration, id: string, now: int)
    requires Inv(cfg, s256, s)
    ensures Inv(cfg, s256, Register(s, body, id, now).0)
  {
    var c := Client(id, body.redirects);
    if Register(s, body, id, now).1.Ok? {
      if |s.clients| < MAX_CLIENTS {
        AddClientInv(cfg, s256, s, c, now);
      } else {
        var i := Evictee(s.clients, s.tokens, now).value;
        RemoveClientInv(cfg, s256, s, i);
        AddClientInv(cfg, s256, RemoveClient(s, i), c, now);
      }
    }
  }

  // ---------------------------------------------------------------------
  // Authorization and consent
  // ---------------------------------------------------------------------

  lemma {:induction false} DropStaleOk(m: OMap<string, Consent>, nonces: seq<string>, now: int)
    requires m.Valid()
    ensures DropStale(m, nonces, now).Valid() && DropStale(m, nonces, now).at.Keys <= m.at.Keys
  {
    if nonces != [] { DropStaleOk(m, nonces[..|nonces| - 1], now); }
  }

  lemma {:induction false} EvictKeys(m: OMap<string, Consent>, cap: nat)
    requires m.Valid()
    ensures m.EvictTo(cap).at.Keys <= m.at.Keys
    decreases |m.keys|
  {
    if |m.keys| > cap { EvictKeys(m.DropOldest(), cap); }
  }

  lemma BeginInv(cfg: Config, s256: string -> string, s: Server, p: Params, nonce: string, now: int)
    requires Inv(cfg, s256, s) && nonce !in s.drawn
    ensures Inv(cfg, s256, Begin(s, p, nonce, now))
  {
    var r := Begin(s, p, nonce, now);
    var m := s.consents.Set(nonce, Consent(p, now + CONSENT_TTL_MS));
    DropStaleOk(m, m.keys, now);
    EvictKeys(DropStale(m, m.keys, now), MAX_CONSENTS);
    assert Unspent(s.log, ConsentGrant(nonce));
    forall i | 0 <= i < |r.tokens| ensures Registered(r.clients, r.tokens[i].client) { assert TokenOk(s256, s, s.tokens[i]); }
    KeptOk(s256, s, r);
  }

  /** A later entry leaves what was traced traced, and spends only its own grant. */
  lemma TokenExtends(s256: string -> string, s: Server, r: Server, e: Entry, t: Token)
    requires TokenOk(s256, s, t) && r.clients == s.clients && s.drawn <= r.drawn && r.log == s.log + [e]
    requires t.kind == Refresh ==> SpentOn(e) != RefreshGrant(t.hash.of)
    ensures TokenOk(s256, r, t)
  {
    var n :| 0 <= n < |s.log| && Yields(s.log[n], t) && Rooted(s256, s.log, n);
    RootedExtends(s256, s.log, [e], n);
    assert Yields(r.log[n], t);
  }

  lemma CodesExtend(s: Server, r: Server, e: Entry)
    requires CodesOk(s) && s.drawn <= r.drawn && r.log == s.log + [e]
    requires forall c :: c in r.codes ==> c in s.codes && r.codes[c] == s.codes[c] && SpentOn(e) != CodeGrant(c)
    ensures CodesOk(r)
  {
    forall c | c in r.codes ensures IssuedFor(r.log, c, r.codes[c].params) {
      var n :| 0 <= n < |s.log| && s.log[n].CodeIssued? && s.log[n].code == c && s.log[n].params == s.codes[c].params;
      assert r.log[n] == s.log[n];
    }
  }

  lemma LogExtends(cfg: Config, s256: string -> string, s: Server, r: Server, e: Entry)
    requires LogOk(cfg, s256, s) && s.drawn <= r.drawn && r.log == s.log + [e]
    requires Unspent(s.log, SpentOn(e)) && GrantString(SpentOn(e)) in r.drawn
    requires e.CodeIssued? ==> e.password == cfg.password
    requires e.PairIssued? ==> Rooted(s256, r.log, |s.log|)
    ensures LogOk(cfg, s256, r)
  {
    forall i | 0 <= i < |r.log| && r.log[i].PairIssued? ensures Rooted(s256, r.log, i) {
      if i < |s.log| { RootedExtends(s256, s.log, [e], i); }
    }
  }

  lemma IssueCodeInv(cfg: Config, s256: string -> string, s: Server, nonce: string, p: Params, key: string, code: string, now: int)
    requires Inv(cfg, s256, s) && nonce in s.consents.at && code !in s.drawn
    ensures Inv(cfg, s256, IssueCode(s, nonce, cfg.password, p, key, code, now))
  {
    var r := IssueCode(s, nonce, cfg.password, p, key, code, now);
    var e := CodeIssued(nonce, cfg.password, p, code);
    LogExtends(cfg, s256, s, r, e);
    forall i | 0 <= i < |r.tokens| ensures TokenOk(s256, r, r.tokens[i]) { TokenExtends(s256, s, r, e, s.tokens[i]); }
    var before := r.(codes := s.codes);
    CodesExtend(s, before, e);
    assert r.log[|s.log|] == e;
    assert IssuedFor(r.log, code, p);
    assert Unspent(r.log, CodeGrant(code));
  }

  lemma CompleteInv(cfg: Config, s256: string -> string, s: Server, nonce: Option<string>, password: Option<string>, key: string, code: string, now: int)
    requires Inv(cfg, s256, s) && code !in s.drawn
    ensures Inv(cfg, s256, Complete(cfg, s, nonce, password, key, code, now).0)
  {
    var t := s.(failures := Cooled(s.failures, key, now));
    SameInv(cfg, s256, s, t);
    var r := Complete(cfg, s, nonce, password, key, code, now);
    if r.1.Ok? {
      IssueCodeInv(cfg, s256, t, nonce.value, s.consents.at[nonce.value].params, key, code, now);
    } else {
      SameInv(cfg, s256, s, r.0);
    }
  }

  lemma SameInv(cfg: Config, s256: string -> string, s: Server, r: Server)
    requires Inv(cfg, s256, s) && r == s.(failures := r.failures)
    ensures Inv(cfg, s256, r)
  {
    forall i | 0 <= i < |r.tokens| ensures TokenOk(s256, r, r.tokens[i]) { assert TokenOk(s256, s, s.tokens[i]); }
  }

  // ---------------------------------------------------------------------
  // The token endpoint
  // ---------------------------------------------------------------------

  /** What a grant must be before a pair is issued for it: drawn, unspent, and no longer redeemable. */
  ghost predicate Spendable(s: Server, g: Grant) {
    && Unspent(s.log, g) && GrantString(g) in s.drawn && !g.ConsentGrant?
    && (forall c :: c in s.codes ==> g != CodeGrant(c))
    && (forall i :: 0 <= i < |s.tokens| && s.tokens[i].kind == Refresh ==> g != RefreshGrant(s.tokens[i].hash.of))
  }

  ghost predicate FreshPair(s: Server, access: string, refresh: string) {
    access !in s.drawn && refresh !in s.drawn && access != refresh
  }

  /** The state just after a pair is issued, before the snapshot drops anything. */
  function Grown(s: Server, e: Entry, now: int): Server
    requires e.PairIssued?
  {
    s.(tokens := s.tokens + [Token(Sha256(e.access), Access, e.client, e.resource, e.scope, now + ACCESS_TTL_MS),
                             Token(Sha256(e.refresh), Refresh, e.client, e.resource, e.scope, now + REFRESH_TTL_MS)],
       drawn := s.drawn + {e.access, e.refresh}, log := s.log + [e])
  }

  lemma NewTokensOk(s256: string -> string, s: Server, e: Entry, now: int)
    requires e.PairIssued? && Registered(s.clients, e.client) && FreshPair(s, e.access, e.refresh)
    requires Rooted(s256, s.log + [e], |s.log|)
    requires GrantString(e.grant) in s.drawn && forall i :: 0 <= i < |s.log| ==> GrantString(SpentOn(s.log[i])) in s.drawn
    ensures
      var r := Grown(s, e, now);
      TokenOk(s256, r, r.tokens[|s.tokens|]) && TokenOk(s256, r, r.tokens[|s.tokens| + 1])
  {
    var r, n := Grown(s, e, now), |s.tokens|;
    assert r.log[|s.log|] == e;
    assert Yields(r.log[|s.log|], r.tokens[n]) && Yields(r.log[|s.log|], r.tokens[n + 1]);
    assert Unspent(r.log, RefreshGrant(e.refresh));
  }

  lemma GrownTokens(s256: string -> string, s: Server, e: Entry, now: int)
    requires TokensOk(s256, s) && DistinctTokens(s.tokens)
    requires e.PairIssued? && Registered(s.clients, e.client) && FreshPair(s, e.access, e.refresh) && Spendable(s, e.grant)
    requires Rooted(s256, s.log + [e], |s.log|)
    requires forall i :: 0 <= i < |s.log| ==> GrantString(SpentOn(s.log[i])) in s.drawn
    ensures TokensOk(s256, Grown(s, e, now)) && DistinctTokens(Grown(s, e, now).tokens)
  {
    var r, n := Grown(s, e, now), |s.tokens|;
    NewTokensOk(s256, s, e, now);
    forall i | 0 <= i < |r.tokens| ensures TokenOk(s256, r, r.tokens[i]) {
      if i < n {
        assert r.tokens[i] == s.tokens[i];
        TokenExtends(s256, s, r, e, s.tokens[i]);
      }
    }
    GrownDistinct(s256, s, e, now);
  }

  lemma GrownDistinct(s256: string -> string, s: Server, e: Entry, now: int)
    requires TokensOk(s256, s) && DistinctTokens(s.tokens) && e.PairIssued? && FreshPair(s, e.access, e.refresh)
    ensures DistinctTokens(Grown(s, e, now).tokens)
  {
    var r, n := Grown(s, e, now), |s.tokens|;
    forall i, j | 0 <= i < j < |r.tokens| ensures r.tokens[i].hash != r.tokens[j].hash {
      if i < n { assert r.tokens[i] == s.tokens[i] && TokenOk(s256, s, s.tokens[i]); }
      if j < n { assert r.tokens[j] == s.tokens[j]; }
    }
  }

  lemma GrownInv(cfg: Config, s256: string -> string, s: Server, e: Entry, now: int)
    requires Inv(cfg, s256, s) && e.PairIssued? && Registered(s.clients, e.client) && FreshPair(s, e.access, e.refresh)
    requires Spendable(s, e.grant) && Rooted(s256, s.log + [e], |s.log|)
    ensures
      var r := Grown(s, e, now);
      TokensOk(s256, r) && DistinctTokens(r.tokens) && CodesOk(r) && ConsentsOk(r) && LogOk(cfg, s256, r)
  {
    GrownTokens(s256, s, e, now);
    CodesExtend(s, Grown(s, e, now), e);
    LogExtends(cfg, s256, s, Grown(s, e, now), e);
  }

  lemma IssueInv(cfg: Config, s256: string -> string, s: Server, g: Grant, verifier: string, client: string, resource: string, scope: string,
                 access: string, refresh: string, now: int)
    requires Inv(cfg, s256, s) && Registered(s.clients, client) && FreshPair(s, access, refresh) && Spendable(s, g)
    requires Rooted(s256, s.log + [PairIssued(g, verifier, client, resource, scope, access, refresh)], |s.log|)
    ensures Inv(cfg, s256, Issue(s, g, verifier, client, resource, scope, access, refresh, now).0)
  {
    var e := PairIssued(g, verifier, client, resource, scope, access, refresh);
    var m := Grown(s, e, now);
    var r := Issue(s, g, verifier, client, resource, scope, access, refresh, now).0;
    GrownInv(cfg, s256, s, e, now);
    assert r == m.(tokens := Pruned(m.tokens, now));
    PrunedKept(m.tokens, now);
    forall i | 0 <= i < |r.tokens| ensures Registered(r.clients, r.tokens[i].client) {
      var k :| 0 <= k < |m.tokens| && m.tokens[k] == r.tokens[i];
      assert TokenOk(s256, m, m.tokens[k]);
    }
    KeptOk(s256, m, r);
  }

  lemma DropCodeInv(cfg: Config, s256: string -> string, s: Server, code: string)
    requires Inv(cfg, s256, s)
    ensures Inv(cfg, s256, s.(codes := s.codes - {code}))
  {
    var r := s.(codes := s.codes - {code});
    forall i | 0 <= i < |r.tokens| ensures TokenOk(s256, r, r.tokens[i]) { assert TokenOk(s256, s, s.tokens[i]); }
  }

  lemma RedeemInv(cfg: Config, s256: string -> string, s: Server, client: string, f: Form, access: string, refresh: string, now: int)
    requires Inv(cfg, s256, s) && Registered(s.clients, client) && FreshPair(s, access, refresh)
    ensures Inv(cfg, s256, RedeemCode(s256, s, client, f, access, refresh, now).0)
  {
    if Given(f.code) {
      var t := s.(codes := s.codes - {f.code.value});
      DropCodeInv(cfg, s256, s, f.code.value);
      if RedeemCode(s256, s, client, f, access, refresh, now).1.Ok? {
        var p, g := s.codes[f.code.value].params, CodeGrant(f.code.value);
        var e := PairIssued(g, OrEmpty(f.verifier), client, p.resource, p.scope, access, refresh);
        var n :| 0 <= n < |s.log| && s.log[n].CodeIssued? && s.log[n].code == f.code.value && s.log[n].params == p;
        assert (s.log + [e])[n] == s.log[n] && (s.log + [e])[|s.log|] == e;
        assert Redeems(s256, (s.log + [e])[n], e);
        IssueInv(cfg, s256, t, g, OrEmpty(f.verifier), client, p.resource, p.scope, access, refresh, now);
      }
    }
  }

  lemma SpliceInv(cfg: Config, s256: string -> string, s: Server, n: nat)
    requires Inv(cfg, s256, s) && n < |s.tokens|
    ensures Inv(cfg, s256, s.(tokens := s.tokens[..n] + s.tokens[n + 1..]))
  {
    var r := s.(tokens := s.tokens[..n] + s.tokens[n + 1..]);
    SpliceKept(s.tokens, n, r.tokens);
    forall i | 0 <= i < |r.tokens| ensures Registered(r.clients, r.tokens[i].client) {
      var k :| 0 <= k < |s.tokens| && s.tokens[k] == r.tokens[i];
      assert TokenOk(s256, s, s.tokens[k]);
    }
    KeptOk(s256, s, r);
  }

  /** The pair that yielded a stored refresh token is what its rotation goes back to. */
  lemma RotationIsRooted(s256: string -> string, s: Server, t: Token, e: Entry)
    requires TokenOk(s256, s, t) && t.kind == Refresh && e.PairIssued?
    requires e.grant == RefreshGrant(t.hash.of) && e.client == t.client && e.resource == t.resource && e.scope == t.scope
    ensures Rooted(s256, s.log + [e], |s.log|)
  {
    var n :| 0 <= n < |s.log| && Yields(s.log[n], t) && Rooted(s256, s.log, n);
    RootedExtends(s256, s.log, [e], n);
    assert (s.log + [e])[|s.log|] == e && (s.log + [e])[n] == s.log[n];
    assert Rotates((s.log + [e])[n], e);
  }

  lemma RotateInv(cfg: Config, s256: string -> string, s: Server, client: string, f: Form, access: string, refresh: string, now: int)
    requires Inv(cfg, s256, s) && Registered(s.clients, client) && FreshPair(s, access, refresh)
    ensures Inv(cfg, s256, Rotate(s, client, f, access, refresh, now).0)
  {
    if Rotate(s, client, f, access, refresh, now).1.Ok? {
      var n := FindToken(s.tokens, Refresh, Sha256(OrEmpty(f.refresh))).value;
      var t, g := s.tokens[n], RefreshGrant(OrEmpty(f.refresh));
      var s' := s.(tokens := s.tokens[..n] + s.tokens[n + 1..]);
      assert TokenOk(s256, s, t);
      SpliceInv(cfg, s256, s, n);
      SpliceKept(s.tokens, n, s'.tokens);
      RotationIsRooted(s256, s, t, PairIssued(g, "", client, t.resource, t.scope, access, refresh));
      IssueInv(cfg, s256, s', g, "", client, t.resource, t.scope, access, refresh, now);
    }
  }

  lemma ExchangeInv(cfg: Config, s256: string -> string, s: Server, f: Form, access: string, refresh: string, now: int)
    requires Inv(cfg, s256, s) && FreshPair(s, access, refresh)
    ensures Inv(cfg, s256, Exchange(s256, s, f, access, refresh, now).0)
  {
    if Given(f.client) && FindClient(s.clients, f.client.value).Some? {
      assert Registered(s.clients, f.client.value);
      if f.grant == "authorization_code" {
        RedeemInv(cfg, s256, s, f.client.value, f, access, refresh, now);
      } else if f.grant == "refresh_token" {
        RotateInv(cfg, s256, s, f.client.value, f, access, refresh, now);
      }
    }
  }

  // ---------------------------------------------------------------------
  // Runs
  // ---------------------------------------------------------------------

  datatype Action =
    | DoRegister(body: Registration, id: string, now: int)
    | DoAuthorize(q: AuthorizeQuery, nonce: string, now: int)
    | DoConsent(consent: Option<string>, password: Option<string>, key: string, code: string, now: int)
    | DoToken(form: Form, access: string, refresh: string, now: int)
    | DoRestart

  /** The random strings an operation draws have never been drawn before. */
  ghost predicate FreshDraw(s: Server, a: Action) {
    match a
    case DoRegister(_, id, _) => id !in s.drawn
    case DoAuthorize(_, nonce, _) => nonce !in s.drawn
    case DoConsent(_, _, _, code, _) => code !in s.drawn
    case DoToken(_, access, refresh, _) => FreshPair(s, access, refresh)
    case DoRestart => true
  }

  function Next(cfg: Config, s256: string -> string, s: Server, a: Action): Server {
    match a
    case DoRegister(body, id, now) => Register(s, body, id, now).0
    case DoAuthorize(q, nonce, now) => Authorize(cfg, s, q, nonce, now).0
    case DoConsent(consent, password, key, code, now) => Complete(cfg, s, consent, password, key, code, now).0
    case DoToken(form, access, refresh, now) => Exchange(s256, s, form, access, refresh, now).0
    case DoRestart => Restarted(s)
  }

  ghost predicate IsRun(cfg: Config, s256: string -> string, ss: seq<Server>, acts: seq<Action>) {
    && |ss| == |acts| + 1 && ss[0] == EMPTY
    && forall i :: 0 <= i < |acts| ==> FreshDraw(ss[i], acts[i]) && ss[i + 1] == Next(cfg, s256, ss[i], acts[i])
  }

  lemma RestartInv(cfg: Config, s256: string -> string, s: Server)
    requires Inv(cfg, s256, s)
    ensures Inv(cfg, s256, Restarted(s))
  {
    var r := Restarted(s);
    forall i | 0 <= i < |r.tokens| ensures TokenOk(s256, r, r.tokens[i]) { assert TokenOk(s256, s, s.tokens[i]); }
  }

  lemma NextInv(cfg: Config, s256: string -> string, s: Server, a: Action)
    requires Inv(cfg, s256, s) && FreshDraw(s, a)
    ensures Inv(cfg, s256, Next(cfg, s256, s, a))
  {
    match a
    case DoRegister(body, id, now) => RegisterInv(cfg, s256, s, body, id, now);
    case DoAuthorize(q, nonce, now) =>
      if Validate(cfg, s, q).Proceed? { BeginInv(cfg, s256, s, Validate(cfg, s, q).params, nonce, now); }
    case DoConsent(consent, password, key, code, now) => CompleteInv(cfg, s256, s, consent, password, key, code, now);
    case DoToken(form, access, refresh, now) => ExchangeInv(cfg, s256, s, form, access, refresh, now);
    case DoRestart => RestartInv(cfg, s256, s);
  }

  lemma {:induction false} RunInv(cfg: Config, s256: string -> string, ss: seq<Server>, acts: seq<Action>, i: nat)
    requires IsRun(cfg, s256, ss, acts) && i <= |acts|
    ensures Inv(cfg, s256, ss[i])
  {
    if i > 0 {
      RunInv(cfg, s256, ss, acts, i - 1);
      NextInv(cfg, s256, ss[i - 1], acts[i - 1]);
      assert ss[i - 1 + 1] == Next(cfg, s256, ss[i - 1], acts[i - 1]);
    }
  }

  // ---------------------------------------------------------------------
  // What it means
  // ---------------------------------------------------------------------

  /** Each consent yields at most one code, each code at most one pair, each refresh token at most one rotation. */
  lemma GrantsAreSpentOnce(cfg: Config, s256: string -> string, ss: seq<Server>, acts: seq<Action>, i: nat, a: nat, b: nat)
    requires IsRun(cfg, s256, ss, acts) && i <= |acts| && a < b < |ss[i].log|
    ensures SpentOn(ss[i].log[a]) != SpentOn(ss[i].log[b])
  {
    RunInv(cfg, s256, ss, acts, i);
  }

  /** Entry `c` is the consent, given with the operator's password, whose code pair `m` redeemed by showing
      the verifier of its challenge. */
  ghost predicate Consented(cfg: Config, s256: string -> string, log: seq<Entry>, c: nat, m: nat, client: string) {
    && c < m < |log| && Redeems(s256, log[c], log[m]) && log[c].CodeIssued?
    && log[c].password == cfg.password && log[c].params.client == client
  }

  lemma {:induction false} RootIsConsent(cfg: Config, s256: string -> string, log: seq<Entry>, n: nat)
    requires Rooted(s256, log, n)
    requires forall i :: 0 <= i < |log| && log[i].CodeIssued? ==> log[i].password == cfg.password
    ensures exists c: nat, m: nat :: m <= n && Consented(cfg, s256, log, c, m, log[n].client)
    decreases n
  {
    if c :| 0 <= c < n && Redeems(s256, log[c], log[n]) {
      assert Consented(cfg, s256, log, c, n, log[n].client);
    } else {
      var p :| 0 <= p < n && Rotates(log[p], log[n]) && Rooted(s256, log, p);
      RootIsConsent(cfg, s256, log, p);
    }
  }

  /** Every access token the resource server accepts was issued, for this resource and to the client it names,
      and leads back through rotations to a code that client redeemed with the PKCE verifier matching the
      challenge of a consent the operator's password was given for. */
  lemma AcceptedTokensTraceBack(cfg: Config, s256: string -> string, ss: seq<Server>, acts: seq<Action>, i: nat, token: string, now: int)
    requires IsRun(cfg, s256, ss, acts) && i <= |acts| && VerifyAccess(cfg, ss[i], token, now).Ok?
    ensures
      var log, client := ss[i].log, VerifyAccess(cfg, ss[i], token, now).value;
      exists n :: 0 <= n < |log| && log[n].PairIssued? && log[n].access == token && log[n].client == client
        && log[n].resource == cfg.resource
        && exists c: nat, m: nat :: m <= n && Consented(cfg, s256, log, c, m, client)
  {
    RunInv(cfg, s256, ss, acts, i);
    var s := ss[i];
    var t := s.tokens[FindToken(s.tokens, Access, Sha256(token)).value];
    assert TokenOk(s256, s, t);
    var n :| 0 <= n < |s.log| && Yields(s.log[n], t) && Rooted(s256, s.log, n);
    RootIsConsent(cfg, s256, s.log, n);
  }

  /** Every stored token's client is registered, and neither registry outgrows its bound. */
  lemma StoredTokensAreRegistered(cfg: Config, s256: string -> string, ss: seq<Server>, acts: seq<Action>, i: nat, n: nat)
    requires IsRun(cfg, s256, ss, acts) && i <= |acts| && n < |ss[i].tokens|
    ensures Registered(ss[i].clients, ss[i].tokens[n].client)
    ensures |ss[i].clients| <= MAX_CLIENTS && |ss[i].tokens| <= MAX_TOKENS
  {
    RunInv(cfg, s256, ss, acts, i);
    assert TokenOk(s256, ss[i], ss[i].tokens[n]);
  }

  lemma SpentCodeIsRefused(cfg: Config, s256: string -> string, s: Server, f: Form, access: string, refresh: string, now: int)
    requires Inv(cfg, s256, s) && f.grant == "authorization_code" && f.code.Some? && !Unspent(s.log, CodeGrant(f.code.value))
    ensures Exchange(s256, s, f, access, refresh, now).1.Err?
  {
  }

  lemma RotatedTokenIsRefused(cfg: Config, s256: string -> string, s: Server, f: Form, access: string, refresh: string, now: int)
    requires Inv(cfg, s256, s) && f.grant == "refresh_token" && !Unspent(s.log, RefreshGrant(OrEmpty(f.refresh)))
    ensures Exchange(s256, s, f, access, refresh, now).1.Err?
  {
    forall i | 0 <= i < |s.tokens| ensures s.tokens[i].kind == Refresh ==> Unspent(s.log, RefreshGrant(s.tokens[i].hash.of)) {
      assert TokenOk(s256, s, s.tokens[i]);
    }
  }

  lemma SpentConsentIsRefused(cfg: Config, s256: string -> string, s: Server, nonce: string, password: Option<string>, key: string, code: string, now: int)
    requires Inv(cfg, s256, s) && !Unspent(s.log, ConsentGrant(nonce))
    ensures Complete(cfg, s, Some(nonce), password, key, code, now).1.Err?
  {
  }

  lemma NextLog(cfg: Config, s256: string -> string, s: Server, a: Action)
    ensures s.log <= Next(cfg, s256, s, a).log
  {
  }

  lemma {:induction false} LogStays(cfg: Config, s256: string -> string, ss: seq<Server>, acts: seq<Action>, i: nat, j: nat)
    requires IsRun(cfg, s256, ss, acts) && i <= j <= |acts|
    ensures ss[i].log <= ss[j].log
  {
    hide Next, FreshDraw;
    if i < j {
      LogStays(cfg, s256, ss, acts, i, j - 1);
      NextLog(cfg, s256, ss[j - 1], acts[j - 1]);
      assert ss[j - 1 + 1] == Next(cfg, s256, ss[j - 1], acts[j - 1]);
    }
  }

  /** What was spent in one step stays spent in every later state. */
  lemma StaysSpent(cfg: Config, s256: string -> string, ss: seq<Server>, acts: seq<Action>, i: nat, j: nat, g: Grant)
    requires IsRun(cfg, s256, ss, acts) && i < j <= |acts| && !Unspent(ss[i + 1].log, g)
    ensures !Unspent(ss[j].log, g) && Inv(cfg, s256, ss[j])
  {
    LogStays(cfg, s256, ss, acts, i + 1, j);
    RunInv(cfg, s256, ss, acts, j);
    var n :| 0 <= n < |ss[i + 1].log| && SpentOn(ss[i + 1].log[n]) == g;
    assert ss[j].log[n] == ss[i + 1].log[n];
  }

  lemma LastIsSpent(log: seq<Entry>, e: Entry)
    ensures !Unspent(log + [e], SpentOn(e))
  {
    assert (log + [e])[|log|] == e;
  }

  /** In every run: once a consent page has been answered with a code, no later submission of it is. */
  lemma AnsweredConsentIsRefused(cfg: Config, s256: string -> string, ss: seq<Server>, acts: seq<Action>, i: nat, j: nat,
                                 password: Option<string>, key: string, code: string, now: int)
    requires IsRun(cfg, s256, ss, acts) && i < j <= |acts| && acts[i].DoConsent? && acts[i].consent.Some?
    requires Complete(cfg, ss[i], acts[i].consent, acts[i].password, acts[i].key, acts[i].code, acts[i].now).1.Ok?
    ensures Complete(cfg, ss[j], acts[i].consent, password, key, code, now).1.Err?
  {
    var s, nonce := ss[i], acts[i].consent.value;
    assert ss[i + 1] == Next(cfg, s256, s, acts[i]);
    LastIsSpent(s.log, CodeIssued(nonce, acts[i].password.value, s.consents.at[nonce].params, acts[i].code));
    StaysSpent(cfg, s256, ss, acts, i, j, ConsentGrant(nonce));
    SpentConsentIsRefused(cfg, s256, ss[j], nonce, password, key, code, now);
  }

  ghost predicate Exchanged(s256: string -> string, s: Server, a: Action) {
    a.DoToken? && Exchange(s256, s, a.form, a.access, a.refresh, a.now).1.Ok?
  }

  lemma ExchangeSpends(cfg: Config, s256: string -> string, s: Server, a: Action)
    requires Exchanged(s256, s, a)
    ensures
      if a.form.grant == "authorization_code" then
        a.form.code.Some? && !Unspent(Next(cfg, s256, s, a).log, CodeGrant(a.form.code.value))
      else a.form.grant == "refresh_token" && !Unspent(Next(cfg, s256, s, a).log, RefreshGrant(OrEmpty(a.form.refresh)))
  {
    var log := Next(cfg, s256, s, a).log;
    assert log == s.log + [log[|s.log|]];
    LastIsSpent(s.log, log[|s.log|]);
  }

  /** In every run: a code that has been redeemed redeems nothing again, whoever presents it and however. */
  lemma RedeemedCodeIsRefused(cfg: Config, s256: string -> string, ss: seq<Server>, acts: seq<Action>, i: nat, j: nat,
                              f: Form, access: string, refresh: string, now: int)
    requires IsRun(cfg, s256, ss, acts) && i < j <= |acts| && Exchanged(s256, ss[i], acts[i])
    requires acts[i].form.grant == "authorization_code" == f.grant && f.code == acts[i].form.code
    ensures Exchange(s256, ss[j], f, access, refresh, now).1.Err?
  {
    assert ss[i + 1] == Next(cfg, s256, ss[i], acts[i]);
    ExchangeSpends(cfg, s256, ss[i], acts[i]);
    StaysSpent(cfg, s256, ss, acts, i, j, CodeGrant(f.code.value));
    SpentCodeIsRefused(cfg, s256, ss[j], f, access, refresh, now);
  }

  /** In every run: a refresh token that has been rotated is dead. */
  lemma RotatedTokenStaysRefused(cfg: Config, s256: string -> string, ss: seq<Server>, acts: seq<Action>, i: nat, j: nat,
                                 f: Form, access: string, refresh: string, now: int)
    requires IsRun(cfg, s256, ss, acts) && i < j <= |acts| && Exchanged(s256, ss[i], acts[i])
    requires acts[i].form.grant == "refresh_token" == f.grant && f.refresh == acts[i].form.refresh
    ensures Exchange(s256, ss[j], f, access, refresh, now).1.Err?
  {
    assert ss[i + 1] == Next(cfg, s256, ss[i], acts[i]);
    ExchangeSpends(cfg, s256, ss[i], acts[i]);
    StaysSpent(cfg, s256, ss, acts, i, j, RefreshGrant(OrEmpty(f.refresh)));
    RotatedTokenIsRefused(cfg, s256, ss[j], f, access, refresh, now);
  }

  // ---------------------------------------------------------------------
  // Registration spares the established
  // ---------------------------------------------------------------------

  lemma {:induction false} UnexpiredHas(ts: seq<Token>, now: int, t: Token)
    requires t in ts && t.expires > now
    ensures t in Unexpired(ts, now)
  {
    var n := |ts| - 1;
    assert ts == ts[..n] + [ts[n]];
    if t in ts[..n] { UnexpiredHas(ts[..n], now, t); }
  }

  lemma {:induction false} NotOfHas(ts: seq<Token>, client: string, t: Token)
    requires t in ts && t.client != client
    ensures t in NotOf(ts, client)
  {
    var n := |ts| - 1;
    assert ts == ts[..n] + [ts[n]];
    if t in ts[..n] { NotOfHas(ts[..n], client, t); }
  }

  lemma AddClientSpares(s: Server, c: Client, now: int, id: string, t: Token)
    requires |s.tokens| <= MAX_TOKENS
    ensures Registered(s.clients, id) ==> Registered(AddClient(s, c, now).clients, id)
    ensures t in s.tokens && t.expires > now ==> t in AddClient(s, c, now).tokens
  {
    if j :| 0 <= j < |s.clients| && s.clients[j].id == id {
      assert AddClient(s, c, now).clients[j] == s.clients[j];
    }
    if t in s.tokens && t.expires > now { UnexpiredHas(s.tokens, now, t); }
    UnexpiredKept(s.tokens, now);
  }

  /** A registration, which anyone may request, never costs a client with a live refresh token its slot or
      any of its unexpired tokens; when every slot is held by such a client it is refused. */
  lemma RegistrationSparesEstablished(cfg: Config, s256: string -> string, s: Server, body: Registration, id: string, now: int, c: string, t: Token)
    requires Inv(cfg, s256, s) && Registered(s.clients, c) && HasLiveRefresh(s.tokens, c, now)
    requires t in s.tokens && t.client == c && t.expires > now
    ensures Registered(Register(s, body, id, now).0.clients, c) && t in Register(s, body, id, now).0.tokens
    ensures |s.clients| == MAX_CLIENTS && (forall i :: 0 <= i < |s.clients| ==> HasLiveRefresh(s.tokens, s.clients[i].id, now))
      ==> Register(s, body, id, now).1.Err?
  {
    hide AddClient, TokensOk, CodesOk, ConsentsOk, LogOk, DistinctTokens;
    var n := Client(id, body.redirects);
    if Register(s, body, id, now).1.Ok? {
      if |s.clients| < MAX_CLIENTS {
        AddClientSpares(s, n, now, c, t);
      } else {
        var i := Evictee(s.clients, s.tokens, now).value;
        StillRegistered(s.clients, i, c);
        NotOfHas(s.tokens, s.clients[i].id, t);
        NotOfKept(s.tokens, s.clients[i].id);
        AddClientSpares(RemoveClient(s, i), n, now, c, t);
      }
    }
  }
}
