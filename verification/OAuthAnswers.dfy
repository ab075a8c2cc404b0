/** What the OAuth server answers, exactly: each endpoint says yes if and only if the request and the stored state meet
    conditions spelled out here; what it hands out works for its lifetime and no longer; and over runs whatever it
    accepts was issued within that lifetime. */
module OAuthAnswers {
  import opened OrderedMaps
  import opened OAuthModel
  import opened OAuthTraces

  // ---------------------------------------------------------------------
  // The access check
  // ---------------------------------------------------------------------

  ghost predicate Matches(t: Token, kind: Kind, of: string) {
    t.kind == kind && t.hash == Sha256(of)
  }

  /** The first stored token of this kind and hash. */
  ghost predicate First(ts: seq<Token>, kind: Kind, of: string, i: int) {
    0 <= i < |ts| && Matches(ts[i], kind, of) && forall j :: 0 <= j < i ==> !Matches(ts[j], kind, of)
  }

  lemma {:induction false} FindTokenMeaning(ts: seq<Token>, kind: Kind, of: string)
    ensures
      match FindToken(ts, kind, Sha256(of))
      case Some(n) => First(ts, kind, of, n)
      case None => forall i :: 0 <= i < |ts| ==> !Matches(ts[i], kind, of)
  {
    if ts != [] {
      var n := |ts| - 1;
      FindTokenMeaning(ts[..n], kind, of);
      assert forall i :: 0 <= i < n ==> ts[..n][i] == ts[i];
    }
  }

  lemma FirstIsUnique(ts: seq<Token>, kind: Kind, of: string, i: int, j: int)
    requires First(ts, kind, of, i) && First(ts, kind, of, j)
    ensures i == j
  {
  }

  /** An access token stored for this client and resource, and not yet expired. */
  ghost predicate Admits(cfg: Config, s: Server, token: string, now: int, client: string, i: int) {
    && First(s.tokens, Access, token, i)
    && s.tokens[i].client == client && s.tokens[i].expires > now && s.tokens[i].resource == cfg.resource
  }

  /** A request is let in for `client` if and only if the first stored access token with its hash is that client's, has
      not expired and is for this resource. */
  lemma AccessIff(cfg: Config, s: Server, token: string, now: int, client: string)
    ensures VerifyAccess(cfg, s, token, now) == Ok(client) <==> exists i :: Admits(cfg, s, token, now, client, i)
    ensures VerifyAccess(cfg, s, token, now).Err? ==> VerifyAccess(cfg, s, token, now).status == 401
  {
    FindTokenMeaning(s.tokens, Access, token);
    var n := FindToken(s.tokens, Access, Sha256(token));
    if n.Some? {
      assert First(s.tokens, Access, token, n.value);
      if VerifyAccess(cfg, s, token, now) == Ok(client) { assert Admits(cfg, s, token, now, client, n.value); }
      if i :| Admits(cfg, s, token, now, client, i) { FirstIsUnique(s.tokens, Access, token, i, n.value); }
    }
  }

  // ---------------------------------------------------------------------
  // Registration
  // ---------------------------------------------------------------------

  /** Some client session can still be refreshed. */
  ghost predicate Established(s: Server, client: string, now: int) {
    exists i :: 0 <= i < |s.tokens| && s.tokens[i].kind == Refresh && s.tokens[i].client == client && s.tokens[i].expires > now
  }

  ghost predicate FirstIdle(s: Server, now: int, i: int) {
    && 0 <= i < |s.clients| && !Established(s, s.clients[i].id, now)
    && forall j :: 0 <= j < i ==> Established(s, s.clients[j].id, now)
  }

  lemma EstablishedHasLive(s: Server, client: string, now: int)
    ensures HasLiveRefresh(s.tokens, client, now) <==> Established(s, client, now)
  {
    if HasLiveRefresh(s.tokens, client, now) { var i :| 0 <= i < |s.tokens| && LiveRefresh(s.tokens[i], client, now); }
    if i :| 0 <= i < |s.tokens| && s.tokens[i].kind == Refresh && s.tokens[i].client == client && s.tokens[i].expires > now {
      assert LiveRefresh(s.tokens[i], client, now);
    }
  }

  lemma {:induction false} EvicteeIsFirst(cs: seq<Client>, ts: seq<Token>, now: int)
    ensures Evictee(cs, ts, now).Some? ==> forall j :: 0 <= j < Evictee(cs, ts, now).value ==> HasLiveRefresh(ts, cs[j].id, now)
  {
    if cs != [] {
      EvicteeIsFirst(cs[..|cs| - 1], ts, now);
      assert forall j :: 0 <= j < |cs| - 1 ==> cs[..|cs| - 1][j] == cs[j];
    }
  }

  /** A registration is accepted if and only if it is well formed and there is room, or some client has no session left to
      refresh; the first such makes room then, and no other client goes. A refused one changes nothing. */
  lemma RegisterIff(s: Server, body: Registration, id: string, now: int)
    ensures
      var (r, a) := Register(s, body, id, now);
      && (a.Ok? <==> 1 <= |body.redirects| <= 10 && body.acceptable && (|s.clients| < MAX_CLIENTS || exists i :: FirstIdle(s, now, i)))
      && (a.Ok? ==> a.value == Client(id, body.redirects))
      && (a.Err? ==> r == s)
      && (a.Ok? && |s.clients| < MAX_CLIENTS ==> r.clients == s.clients + [a.value])
      && (a.Ok? && |s.clients| >= MAX_CLIENTS ==>
            exists i :: FirstIdle(s, now, i) && r.clients == s.clients[..i] + s.clients[i + 1..] + [a.value])
  {
    forall c ensures HasLiveRefresh(s.tokens, c, now) <==> Established(s, c, now) { EstablishedHasLive(s, c, now); }
    EvicteeIsFirst(s.clients, s.tokens, now);
    var n := Evictee(s.clients, s.tokens, now);
    if n.Some? { assert FirstIdle(s, now, n.value); }
  }

  // ---------------------------------------------------------------------
  // Authorization
  // ---------------------------------------------------------------------

  ghost predicate IsClient(s: Server, id: string) {
    exists i :: 0 <= i < |s.clients| && s.clients[i].id == id
  }

  /** The first client registered under this id, which is the one the server looks at. */
  ghost predicate FirstClient(cs: seq<Client>, id: string, i: int) {
    0 <= i < |cs| && cs[i].id == id && forall j :: 0 <= j < i ==> cs[j].id != id
  }

  lemma {:induction false} FindClientMeaning(cs: seq<Client>, id: string)
    ensures
      match FindClient(cs, id)
      case Some(n) => FirstClient(cs, id, n)
      case None => forall i :: 0 <= i < |cs| ==> cs[i].id != id
  {
    if cs != [] {
      var n := |cs| - 1;
      FindClientMeaning(cs[..n], id);
      assert forall i :: 0 <= i < n ==> cs[..n][i] == cs[i];
    }
  }

  /** The query and the stored client allow this authorization. */
  ghost predicate MayProceed(cfg: Config, s: Server, q: AuthorizeQuery, p: Params, i: int) {
    && q.client.Some? && q.client.value != "" && FirstClient(s.clients, q.client.value, i)
    && p.client == q.client.value && p.redirect in s.clients[i].redirects
    && (if q.redirect.Some? && q.redirect.value != "" then p.redirect == q.redirect.value else s.clients[i].redirects == [p.redirect])
    && q.responseType == "code" && q.challenge == Some(p.challenge) && WellFormedChallenge(p.challenge) && q.challengeMethod == "S256"
    && (q.resource.Some? ==> q.resource.value == cfg.resource) && p.resource == cfg.resource
    && q.scopeOk && p.scope == SCOPE
  }

  /** A consent page for `p` is opened if and only if a registered client asks with one of its own redirect URIs (or has
      only one and names none), for a code, with an S256 challenge, this resource and the one scope. */
  lemma AuthorizeIff(cfg: Config, s: Server, q: AuthorizeQuery, p: Params)
    ensures Validate(cfg, s, q) == Proceed(p) <==> exists i :: MayProceed(cfg, s, q, p, i)
  {
    if q.client.Some? {
      FindClientMeaning(s.clients, q.client.value);
      var n := FindClient(s.clients, q.client.value);
      if n.Some? {
        assert FirstClient(s.clients, q.client.value, n.value);
        if Validate(cfg, s, q) == Proceed(p) { assert MayProceed(cfg, s, q, p, n.value); }
        if i :| MayProceed(cfg, s, q, p, i) { SameFirstClient(s.clients, q.client.value, i, n.value); }
      }
    }
  }

  lemma SameFirstClient(cs: seq<Client>, id: string, i: int, j: int)
    requires FirstClient(cs, id, i) && FirstClient(cs, id, j)
    ensures i == j
  {
  }

  /** An opened page is there for CONSENT_TTL_MS, whatever else was dropped to make room. */
  lemma OpenedPage(cfg: Config, s: Server, q: AuthorizeQuery, nonce: string, now: int)
    requires s.consents.Valid() && nonce !in s.consents.at && Validate(cfg, s, q).Proceed?
    ensures
      var r := Authorize(cfg, s, q, nonce, now).0;
      && nonce in r.consents.at && r.consents.at[nonce] == Consent(Validate(cfg, s, q).params, now + CONSENT_TTL_MS)
      && r.clients == s.clients && r.codes == s.codes && r.tokens == s.tokens && r.failures == s.failures && r.consents.Valid()
  {
    var m := s.consents.Set(nonce, Consent(Validate(cfg, s, q).params, now + CONSENT_TTL_MS));
    assert m.keys[|m.keys| - 1] == nonce;
    DropStaleKeeps(m, m.keys, nonce, now);
    EvictSparesNewest(DropStale(m, m.keys, now), MAX_CONSENTS, nonce);
  }

  /** Dropping stale pages keeps the newest one in its place, as it is not stale. */
  lemma {:induction false} DropStaleKeeps(m: OMap<string, Consent>, nonces: seq<string>, nonce: string, now: int)
    requires m.Valid() && nonce in m.at && m.at[nonce].expires > now && m.keys[|m.keys| - 1] == nonce
    ensures
      var r := DropStale(m, nonces, now);
      r.Valid() && nonce in r.at && r.at[nonce] == m.at[nonce] && r.keys != [] && r.keys[|r.keys| - 1] == nonce
  {
    if nonces != [] {
      var n := |nonces| - 1;
      DropStaleKeeps(m, nonces[..n], nonce, now);
      var rest := DropStale(m, nonces[..n], now);
      if nonces[n] != nonce { WithoutKeepsLast(rest.keys, nonces[n]); }
    }
  }

  lemma WithoutKeepsLast(ks: seq<string>, k: string)
    requires ks != [] && ks[|ks| - 1] != k
    ensures Without(ks, k) != [] && Without(ks, k)[|Without(ks, k)| - 1] == ks[|ks| - 1]
  {
  }

  lemma {:induction false} EvictSparesNewest(m: OMap<string, Consent>, cap: nat, nonce: string)
    requires m.Valid() && cap > 0 && m.keys != [] && m.keys[|m.keys| - 1] == nonce
    ensures nonce in m.EvictTo(cap).at && m.EvictTo(cap).at[nonce] == m.at[nonce]
    decreases |m.keys|
  {
    if |m.keys| > cap {
      OldestOnce(m.keys);
      assert m.keys[|m.keys| - 1] in m.keys[1..];
      EvictSparesNewest(m.DropOldest(), cap, nonce);
    } else {
      assert nonce in m.keys;
    }
  }

  // ---------------------------------------------------------------------
  // Consent
  // ---------------------------------------------------------------------

  /** `key` has spent its guesses for now. */
  ghost predicate CoolingOff(s: Server, key: string, now: int) {
    key in s.failures && s.failures[key].count >= LOGIN_MAX_FAILURES && now <= s.failures[key].windowStart + LOGIN_WINDOW_MS
  }

  /** A consent is answered with a code if and only if its page is open, the operator's password is given and the
      address is not cooling off; the code is good for CODE_TTL_MS and bound to what the page was opened for. */
  lemma ConsentIff(cfg: Config, s: Server, nonce: Option<string>, password: Option<string>, key: string, code: string, now: int)
    ensures
      Complete(cfg, s, nonce, password, key, code, now).1 == Ok(code)
      <==>
      && !CoolingOff(s, key, now)
      && nonce.Some? && nonce.value != "" && nonce.value in s.consents.at && now < s.consents.at[nonce.value].expires
      && password.Some? && password.value != "" && password.value == cfg.password
    ensures Complete(cfg, s, nonce, password, key, code, now).1.Ok? ==> Complete(cfg, s, nonce, password, key, code, now).1 == Ok(code)
    ensures Complete(cfg, s, nonce, password, key, code, now).1.Ok? ==>
      var r := Complete(cfg, s, nonce, password, key, code, now).0;
      && r.codes == s.codes[code := PendingCode(s.consents.at[nonce.value].params, now + CODE_TTL_MS)]
      && nonce.value !in r.consents.at && key !in r.failures && r.clients == s.clients && r.tokens == s.tokens
  {
  }

  // ---------------------------------------------------------------------
  // The token endpoint
  // ---------------------------------------------------------------------

  /** The stored code, the client and the verifier allow this exchange. */
  ghost predicate MayRedeem(s256: string -> string, s: Server, f: Form, now: int) {
    && f.client.Some? && f.client.value != "" && IsClient(s, f.client.value)
    && f.code.Some? && f.code.value != "" && f.code.value in s.codes
    && var c := s.codes[f.code.value];
    && now < c.expires && c.params.client == f.client.value
    && (f.redirect.Some? ==> f.redirect.value == c.params.redirect)
    && (f.resource.Some? ==> f.resource.value == c.params.resource)
    && f.verifier.Some? && WellFormedVerifier(f.verifier.value) && s256(f.verifier.value) == c.params.challenge
  }

  lemma RedeemIff(s256: string -> string, s: Server, f: Form, access: string, refresh: string, now: int)
    requires f.grant == "authorization_code"
    ensures Exchange(s256, s, f, access, refresh, now).1.Ok? <==> MayRedeem(s256, s, f, now)
    ensures MayRedeem(s256, s, f, now) ==>
      var p := s.codes[f.code.value].params;
      HandedOut(s, Exchange(s256, s, f, access, refresh, now).0, p.client, p.resource, access, refresh, now)
    ensures f.code.Some? && f.client.Some? && f.client.value != "" && IsClient(s, f.client.value)
      ==> f.code.value != "" ==> f.code.value !in Exchange(s256, s, f, access, refresh, now).0.codes
  {
    if f.client.Some? { FindClientMeaning(s.clients, f.client.value); }
    if MayRedeem(s256, s, f, now) {
      var p := s.codes[f.code.value].params;
      PairIsStored(s.tokens, access, refresh, p.client, p.resource, p.scope, now);
    }
  }

  /** A refresh token is rotated if and only if the first one stored with its hash is this registered client's, has not
      expired and is for the resource asked for, if one is. */
  ghost predicate MayRotate(s: Server, f: Form, now: int, i: int) {
    && f.client.Some? && f.client.value != "" && IsClient(s, f.client.value)
    && First(s.tokens, Refresh, OrEmpty(f.refresh), i)
    && now < s.tokens[i].expires && s.tokens[i].client == f.client.value
    && (f.resource.Some? ==> f.resource.value == s.tokens[i].resource)
  }

  lemma RotateIff(s256: string -> string, s: Server, f: Form, access: string, refresh: string, now: int)
    requires f.grant == "refresh_token"
    ensures Exchange(s256, s, f, access, refresh, now).1.Ok? <==> exists i :: MayRotate(s, f, now, i)
    ensures forall i :: MayRotate(s, f, now, i) ==>
      HandedOut(s, Exchange(s256, s, f, access, refresh, now).0, s.tokens[i].client, s.tokens[i].resource, access, refresh, now)
  {
    if Exchange(s256, s, f, access, refresh, now).1.Ok? { RotatesSome(s256, s, f, access, refresh, now); }
    forall i | MayRotate(s, f, now, i)
      ensures Exchange(s256, s, f, access, refresh, now).1.Ok?
      ensures HandedOut(s, Exchange(s256, s, f, access, refresh, now).0, s.tokens[i].client, s.tokens[i].resource, access, refresh, now)
    {
      RotatesThis(s256, s, f, access, refresh, now, i);
    }
  }

  lemma RotatesSome(s256: string -> string, s: Server, f: Form, access: string, refresh: string, now: int)
    requires f.grant == "refresh_token" && Exchange(s256, s, f, access, refresh, now).1.Ok?
    ensures exists i :: MayRotate(s, f, now, i)
  {
    FindClientMeaning(s.clients, f.client.value);
    FindTokenMeaning(s.tokens, Refresh, OrEmpty(f.refresh));
    assert MayRotate(s, f, now, FindToken(s.tokens, Refresh, Sha256(OrEmpty(f.refresh))).value);
  }

  lemma RotatesThis(s256: string -> string, s: Server, f: Form, access: string, refresh: string, now: int, i: int)
    requires f.grant == "refresh_token" && MayRotate(s, f, now, i)
    ensures Exchange(s256, s, f, access, refresh, now).1.Ok?
    ensures HandedOut(s, Exchange(s256, s, f, access, refresh, now).0, s.tokens[i].client, s.tokens[i].resource, access, refresh, now)
  {
    hide Pruned, HandedOut;
    FindClientMeaning(s.clients, f.client.value);
    FindTokenMeaning(s.tokens, Refresh, OrEmpty(f.refresh));
    var n := FindToken(s.tokens, Refresh, Sha256(OrEmpty(f.refresh)));
    FirstIsUnique(s.tokens, Refresh, OrEmpty(f.refresh), i, n.value);
    var t, rest := s.tokens[i], s.tokens[..i] + s.tokens[i + 1..];
    var r := s.(tokens := rest);
    IssueHandsOut(r, RefreshGrant(OrEmpty(f.refresh)), "", t.client, t.resource, t.scope, access, refresh, now);
    FewerBefore(r, s, Exchange(s256, s, f, access, refresh, now).0, t.client, t.resource, access, refresh, now);
  }

  lemma IssueHandsOut(s: Server, g: Grant, verifier: string, client: string, resource: string, scope: string, access: string, refresh: string, now: int)
    ensures HandedOut(s, Issue(s, g, verifier, client, resource, scope, access, refresh, now).0, client, resource, access, refresh, now)
  {
    PairIsStored(s.tokens, access, refresh, client, resource, scope, now);
  }

  lemma FewerBefore(r: Server, s: Server, out: Server, client: string, resource: string, access: string, refresh: string, now: int)
    requires HandedOut(r, out, client, resource, access, refresh, now) && r.clients == s.clients
    requires forall i :: 0 <= i < |r.tokens| ==> r.tokens[i] in s.tokens
    ensures HandedOut(s, out, client, resource, access, refresh, now)
  {
  }

  lemma NoOtherGrant(s256: string -> string, s: Server, f: Form, access: string, refresh: string, now: int)
    ensures Exchange(s256, s, f, access, refresh, now).1.Ok? ==> f.grant == "authorization_code" || f.grant == "refresh_token"
  {
  }

  /** The last two stored tokens are a new pair for `client` and `resource`, each with its full lifetime ahead. */
  ghost predicate HandedOut(s: Server, r: Server, client: string, resource: string, access: string, refresh: string, now: int) {
    && r.clients == s.clients && |r.tokens| >= 2
    && var a, b := r.tokens[|r.tokens| - 2], r.tokens[|r.tokens| - 1];
    && Matches(a, Access, access) && a.client == client && a.resource == resource && a.expires == now + ACCESS_TTL_MS
    && Matches(b, Refresh, refresh) && b.client == client && b.resource == resource && b.expires == now + REFRESH_TTL_MS
    && (forall i :: 0 <= i < |r.tokens| - 2 ==> r.tokens[i] in s.tokens)
  }

  lemma PairIsStored(ts: seq<Token>, access: string, refresh: string, client: string, resource: string, scope: string, now: int)
    ensures
      var a := Token(Sha256(access), Access, client, resource, scope, now + ACCESS_TTL_MS);
      var b := Token(Sha256(refresh), Refresh, client, resource, scope, now + REFRESH_TTL_MS);
      var r := Pruned(ts + [a, b], now);
      && |r| >= 2 && r[|r| - 2] == a && r[|r| - 1] == b
      && (forall i :: 0 <= i < |r| - 2 ==> r[i] in ts)
  {
    var a := Token(Sha256(access), Access, client, resource, scope, now + ACCESS_TTL_MS);
    var b := Token(Sha256(refresh), Refresh, client, resource, scope, now + REFRESH_TTL_MS);
    assert (ts + [a, b])[..|ts + [a, b]| - 1] == ts + [a];
    assert (ts + [a])[..|ts + [a]| - 1] == ts;
    var u := Unexpired(ts, now);
    assert Unexpired(ts + [a, b], now) == u + [a] + [b];
    UnexpiredKept(ts, now);
    assert forall i :: 0 <= i < |u| ==> u[i] in ts;
  }

  // ---------------------------------------------------------------------
  // What was handed out works
  // ---------------------------------------------------------------------

  /** A new access token is accepted for its client until ACCESS_TTL_MS have passed, and not after. */
  lemma NewAccessWorks(cfg: Config, s: Server, r: Server, client: string, resource: string, access: string, refresh: string, now: int, later: int)
    requires HandedOut(s, r, client, resource, access, refresh, now)
    requires forall i :: 0 <= i < |s.tokens| ==> s.tokens[i].hash != Sha256(access)
    ensures VerifyAccess(cfg, r, access, later) == Ok(client) <==> later < now + ACCESS_TTL_MS && resource == cfg.resource
    ensures VerifyAccess(cfg, r, access, later).Ok? ==> VerifyAccess(cfg, r, access, later) == Ok(client)
  {
    var n := |r.tokens| - 2;
    assert First(r.tokens, Access, access, n);
    AccessIff(cfg, r, access, later, client);
    if VerifyAccess(cfg, r, access, later) == Ok(client) {
      var i :| Admits(cfg, r, access, later, client, i);
      FirstIsUnique(r.tokens, Access, access, i, n);
    } else if later < now + ACCESS_TTL_MS && resource == cfg.resource {
      assert Admits(cfg, r, access, later, client, n);
    }
    FindTokenMeaning(r.tokens, Access, access);
    FirstIsUnique(r.tokens, Access, access, FindToken(r.tokens, Access, Sha256(access)).value, n);
  }

  /** A new refresh token is rotated for its client until REFRESH_TTL_MS have passed, and not after. */
  lemma NewRefreshWorks(s256: string -> string, s: Server, r: Server, client: string, resource: string, access: string, refresh: string,
                        now: int, f: Form, a: string, b: string, later: int)
    requires HandedOut(s, r, client, resource, access, refresh, now) && client != "" && IsClient(s, client) && access != refresh
    requires forall i :: 0 <= i < |s.tokens| ==> s.tokens[i].hash != Sha256(refresh)
    requires f.grant == "refresh_token" && f.client == Some(client) && f.refresh == Some(refresh) && f.resource.None?
    ensures Exchange(s256, r, f, a, b, later).1.Ok? <==> later < now + REFRESH_TTL_MS
  {
    var n := |r.tokens| - 1;
    assert First(r.tokens, Refresh, refresh, n);
    RotateIff(s256, r, f, a, b, later);
    if Exchange(s256, r, f, a, b, later).1.Ok? {
      var i :| MayRotate(r, f, later, i);
      FirstIsUnique(r.tokens, Refresh, refresh, i, n);
    } else if later < now + REFRESH_TTL_MS {
      assert MayRotate(r, f, later, n);
    }
  }

  // ---------------------------------------------------------------------
  // The whole flow
  // ---------------------------------------------------------------------

  /** An honest client's authorization: a registered client with this redirect URI asks for a code with the challenge of
      its verifier, for this resource. */
  ghost predicate HonestQuery(cfg: Config, s256: string -> string, s: Server, q: AuthorizeQuery, verifier: string) {
    && q.client.Some? && q.client.value != "" && q.redirect.Some? && q.redirect.value != ""
    && (exists i :: FirstClient(s.clients, q.client.value, i) && q.redirect.value in s.clients[i].redirects)
    && q.responseType == "code" && q.challenge == Some(s256(verifier)) && q.challengeMethod == "S256"
    && WellFormedVerifier(verifier) && WellFormedChallenge(s256(verifier))
    && (q.resource.Some? ==> q.resource.value == cfg.resource) && q.scopeOk
  }

  function CodeForm(q: AuthorizeQuery, code: string, verifier: string): Form
    requires q.client.Some?
  {
    Form("authorization_code", q.client, Some(code), q.redirect, Some(verifier), None, None)
  }

  /** An honest flow ends in an access token that is accepted for its client: the page is answered with the password
      before it expires by an address not cooling off, and the code is redeemed with the verifier before it does. */
  lemma HonestFlowIsGranted(cfg: Config, s256: string -> string, s: Server, q: AuthorizeQuery, verifier: string,
                            nonce: string, key: string, code: string, access: string, refresh: string,
                            shown: int, answered: int, redeemed: int, used: int)
    requires s.consents.Valid() && nonce !in s.consents.at && nonce != "" && code != "" && cfg.password != ""
    requires HonestQuery(cfg, s256, s, q, verifier) && !CoolingOff(s, key, answered)
    requires answered < shown + CONSENT_TTL_MS && redeemed < answered + CODE_TTL_MS && used < redeemed + ACCESS_TTL_MS
    requires forall i :: 0 <= i < |s.tokens| ==> s.tokens[i].hash != Sha256(access)
    ensures
      var s1 := Authorize(cfg, s, q, nonce, shown).0;
      var s2 := Complete(cfg, s1, Some(nonce), Some(cfg.password), key, code, answered).0;
      var s3 := Exchange(s256, s2, CodeForm(q, code, verifier), access, refresh, redeemed).0;
      VerifyAccess(cfg, s3, access, used) == Ok(q.client.value)
  {
    var s1 := Authorize(cfg, s, q, nonce, shown).0;
    var p := Params(q.client.value, q.redirect.value, s256(verifier), SCOPE, cfg.resource);
    HonestPage(cfg, s256, s, q, verifier, nonce, shown);
    var s2 := Complete(cfg, s1, Some(nonce), Some(cfg.password), key, code, answered).0;
    ConsentIff(cfg, s1, Some(nonce), Some(cfg.password), key, code, answered);
    assert s2.codes[code] == PendingCode(p, answered + CODE_TTL_MS);
    HonestExchange(cfg, s256, s2, q, verifier, p, code, access, refresh, redeemed, used);
  }

  lemma HonestPage(cfg: Config, s256: string -> string, s: Server, q: AuthorizeQuery, verifier: string, nonce: string, shown: int)
    requires s.consents.Valid() && nonce !in s.consents.at && HonestQuery(cfg, s256, s, q, verifier)
    ensures
      var r := Authorize(cfg, s, q, nonce, shown).0;
      && nonce in r.consents.at
      && r.consents.at[nonce] == Consent(Params(q.client.value, q.redirect.value, s256(verifier), SCOPE, cfg.resource), shown + CONSENT_TTL_MS)
      && r.clients == s.clients && r.tokens == s.tokens && r.failures == s.failures && IsClient(r, q.client.value)
  {
    var p := Params(q.client.value, q.redirect.value, s256(verifier), SCOPE, cfg.resource);
    var i :| FirstClient(s.clients, q.client.value, i) && q.redirect.value in s.clients[i].redirects;
    assert MayProceed(cfg, s, q, p, i);
    AuthorizeIff(cfg, s, q, p);
    OpenedPage(cfg, s, q, nonce, shown);
  }

  lemma HonestExchange(cfg: Config, s256: string -> string, s: Server, q: AuthorizeQuery, verifier: string, p: Params, code: string,
                       access: string, refresh: string, redeemed: int, used: int)
    requires q.client.Some? && q.client.value != "" && IsClient(s, q.client.value) && q.redirect.Some? && WellFormedVerifier(verifier)
    requires p == Params(q.client.value, q.redirect.value, s256(verifier), SCOPE, cfg.resource)
    requires code != "" && code in s.codes && s.codes[code].params == p && redeemed < s.codes[code].expires && used < redeemed + ACCESS_TTL_MS
    requires forall i :: 0 <= i < |s.tokens| ==> s.tokens[i].hash != Sha256(access)
    ensures VerifyAccess(cfg, Exchange(s256, s, CodeForm(q, code, verifier), access, refresh, redeemed).0, access, used) == Ok(q.client.value)
  {
    var f := CodeForm(q, code, verifier);
    RedeemIff(s256, s, f, access, refresh, redeemed);
    assert MayRedeem(s256, s, f, redeemed);
    NewAccessWorks(cfg, s, Exchange(s256, s, f, access, refresh, redeemed).0, q.client.value, cfg.resource, access, refresh, redeemed, used);
  }

  // ---------------------------------------------------------------------
  // Lifetimes over runs
  // ---------------------------------------------------------------------

  function Lifetime(kind: Kind): int {
    if kind == Access then ACCESS_TTL_MS else REFRESH_TTL_MS
  }

  /** This step issued the token, for its client, with its kind's full lifetime. */
  ghost predicate Issues(s256: string -> string, s: Server, a: Action, t: Token) {
    && Exchanged(s256, s, a) && a.form.client == Some(t.client) && t.expires == a.now + Lifetime(t.kind)
    && t.hash == Sha256(if t.kind == Access then a.access else a.refresh)
  }

  /** This step answered a consent with the code. */
  ghost predicate IssuesCode(cfg: Config, s: Server, a: Action, code: string, expires: int) {
    && a.DoConsent? && a.code == code && expires == a.now + CODE_TTL_MS
    && Complete(cfg, s, a.consent, a.password, a.key, a.code, a.now).1.Ok?
  }

  /** This step opened the consent page. */
  ghost predicate OpensPage(cfg: Config, s: Server, a: Action, nonce: string, c: Consent) {
    a.DoAuthorize? && a.nonce == nonce && c.expires == a.now + CONSENT_TTL_MS && Validate(cfg, s, a.q) == Proceed(c.params)
  }

  lemma HandedOutDates(s256: string -> string, s: Server, a: Action, r: Server, client: string, resource: string, t: Token)
    requires Exchanged(s256, s, a) && HandedOut(s, r, client, resource, a.access, a.refresh, a.now) && a.form.client == Some(client)
    requires t in r.tokens
    ensures t in s.tokens || Issues(s256, s, a, t)
  {
    hide Exchanged;
    var i :| 0 <= i < |r.tokens| && r.tokens[i] == t;
  }

  lemma ExchangeDates(s256: string -> string, s: Server, a: Action, t: Token)
    requires Exchanged(s256, s, a) && t in Exchange(s256, s, a.form, a.access, a.refresh, a.now).0.tokens
    ensures t in s.tokens || Issues(s256, s, a, t)
  {
    hide Exchange, Issues, HandedOut;
    var f, r := a.form, Exchange(s256, s, a.form, a.access, a.refresh, a.now).0;
    NoOtherGrant(s256, s, f, a.access, a.refresh, a.now);
    if f.grant == "authorization_code" {
      RedeemIff(s256, s, f, a.access, a.refresh, a.now);
      var p := s.codes[f.code.value].params;
      HandedOutDates(s256, s, a, r, p.client, p.resource, t);
    } else {
      RotateIff(s256, s, f, a.access, a.refresh, a.now);
      var k :| MayRotate(s, f, a.now, k);
      HandedOutDates(s256, s, a, r, s.tokens[k].client, s.tokens[k].resource, t);
    }
  }

  lemma FailedExchangeKeeps(s256: string -> string, s: Server, f: Form, access: string, refresh: string, now: int)
    requires Exchange(s256, s, f, access, refresh, now).1.Err?
    ensures Exchange(s256, s, f, access, refresh, now).0.tokens == s.tokens
  {
  }

  lemma RegisterKeepsOnly(s: Server, body: Registration, id: string, now: int, t: Token)
    requires t in Register(s, body, id, now).0.tokens
    ensures t in s.tokens
  {
    var e := Evictee(s.clients, s.tokens, now);
    UnexpiredKept(s.tokens, now);
    if e.Some? {
      var rest := NotOf(s.tokens, s.clients[e.value].id);
      NotOfKept(s.tokens, s.clients[e.value].id);
      UnexpiredKept(rest, now);
    }
  }

  /** A stored token was stored before, or this step issued it. */
  lemma StepDates(cfg: Config, s256: string -> string, s: Server, a: Action, t: Token)
    requires t in Next(cfg, s256, s, a).tokens
    ensures t in s.tokens || Issues(s256, s, a, t)
  {
    match a
    case DoRegister(body, id, now) => RegisterKeepsOnly(s, body, id, now, t);
    case DoToken(form, access, refresh, now) =>
      if Exchanged(s256, s, a) { ExchangeDates(s256, s, a, t); } else { FailedExchangeKeeps(s256, s, form, access, refresh, now); }
    case _ =>
  }

  lemma {:induction false} TokenIsDated(cfg: Config, s256: string -> string, ss: seq<Server>, acts: seq<Action>, i: nat, t: Token)
    requires IsRun(cfg, s256, ss, acts) && i <= |acts| && t in ss[i].tokens
    ensures exists j :: 0 <= j < i && Issues(s256, ss[j], acts[j], t)
  {
    if i > 0 {
      assert ss[i - 1 + 1] == Next(cfg, s256, ss[i - 1], acts[i - 1]);
      StepDates(cfg, s256, ss[i - 1], acts[i - 1], t);
      if t in ss[i - 1].tokens { TokenIsDated(cfg, s256, ss, acts, i - 1, t); }
    }
  }

  /** In every run an accepted access token was issued to the client it names, less than ACCESS_TTL_MS ago. */
  lemma AcceptedTokenIsFresh(cfg: Config, s256: string -> string, ss: seq<Server>, acts: seq<Action>, i: nat, token: string, now: int)
    requires IsRun(cfg, s256, ss, acts) && i <= |acts| && VerifyAccess(cfg, ss[i], token, now).Ok?
    ensures exists j :: 0 <= j < i && Exchanged(s256, ss[j], acts[j]) && acts[j].access == token
                     && acts[j].form.client == Some(VerifyAccess(cfg, ss[i], token, now).value) && now < acts[j].now + ACCESS_TTL_MS
  {
    var client := VerifyAccess(cfg, ss[i], token, now).value;
    AccessIff(cfg, ss[i], token, now, client);
    var k :| Admits(cfg, ss[i], token, now, client, k);
    TokenIsDated(cfg, s256, ss, acts, i, ss[i].tokens[k]);
    var j :| 0 <= j < i && Issues(s256, ss[j], acts[j], ss[i].tokens[k]);
    assert Exchanged(s256, ss[j], acts[j]) && acts[j].access == token;
  }

  /** In every run a rotated refresh token was issued to its client less than REFRESH_TTL_MS before. */
  lemma RotatedTokenIsFresh(cfg: Config, s256: string -> string, ss: seq<Server>, acts: seq<Action>, i: nat)
    requires IsRun(cfg, s256, ss, acts) && i < |acts| && Exchanged(s256, ss[i], acts[i]) && acts[i].form.grant == "refresh_token"
    ensures exists j :: 0 <= j < i && Exchanged(s256, ss[j], acts[j]) && acts[j].refresh == OrEmpty(acts[i].form.refresh)
                     && acts[j].form.client == acts[i].form.client && acts[i].now < acts[j].now + REFRESH_TTL_MS
  {
    RotateIff(s256, ss[i], acts[i].form, acts[i].access, acts[i].refresh, acts[i].now);
    var k :| MayRotate(ss[i], acts[i].form, acts[i].now, k);
    TokenIsDated(cfg, s256, ss, acts, i, ss[i].tokens[k]);
    var j :| 0 <= j < i && Issues(s256, ss[j], acts[j], ss[i].tokens[k]);
    assert Exchanged(s256, ss[j], acts[j]) && acts[j].refresh == OrEmpty(acts[i].form.refresh);
  }

  lemma StepCodes(cfg: Config, s256: string -> string, s: Server, a: Action, code: string)
    requires code in Next(cfg, s256, s, a).codes
    ensures
      var r := Next(cfg, s256, s, a);
      (code in s.codes && s.codes[code] == r.codes[code]) || IssuesCode(cfg, s, a, code, r.codes[code].expires)
  {
  }

  lemma {:induction false} CodeIsDated(cfg: Config, s256: string -> string, ss: seq<Server>, acts: seq<Action>, i: nat, code: string)
    requires IsRun(cfg, s256, ss, acts) && i <= |acts| && code in ss[i].codes
    ensures exists j :: 0 <= j < i && IssuesCode(cfg, ss[j], acts[j], code, ss[i].codes[code].expires)
  {
    if i > 0 {
      assert ss[i - 1 + 1] == Next(cfg, s256, ss[i - 1], acts[i - 1]);
      StepCodes(cfg, s256, ss[i - 1], acts[i - 1], code);
      if code in ss[i - 1].codes && ss[i - 1].codes[code] == ss[i].codes[code] { CodeIsDated(cfg, s256, ss, acts, i - 1, code); }
    }
  }

  /** In every run a redeemed code was issued by a consent less than CODE_TTL_MS before. */
  lemma RedeemedCodeIsFresh(cfg: Config, s256: string -> string, ss: seq<Server>, acts: seq<Action>, i: nat)
    requires IsRun(cfg, s256, ss, acts) && i < |acts| && Exchanged(s256, ss[i], acts[i]) && acts[i].form.grant == "authorization_code"
    ensures exists j :: 0 <= j < i && acts[j].DoConsent? && Some(acts[j].code) == acts[i].form.code
                     && Complete(cfg, ss[j], acts[j].consent, acts[j].password, acts[j].key, acts[j].code, acts[j].now).1.Ok?
                     && acts[i].now < acts[j].now + CODE_TTL_MS
  {
    RedeemIff(s256, ss[i], acts[i].form, acts[i].access, acts[i].refresh, acts[i].now);
    var code := acts[i].form.code.value;
    CodeIsDated(cfg, s256, ss, acts, i, code);
    var j :| 0 <= j < i && IssuesCode(cfg, ss[j], acts[j], code, ss[i].codes[code].expires);
    assert acts[j].DoConsent? && Some(acts[j].code) == acts[i].form.code;
  }

  lemma BeginPages(s: Server, p: Params, page: string, now: int, nonce: string)
    requires s.consents.Valid() && nonce in Begin(s, p, page, now).consents.at
    ensures
      var c := Begin(s, p, page, now).consents.at[nonce];
      (nonce in s.consents.at && s.consents.at[nonce] == c) || (nonce == page && c == Consent(p, now + CONSENT_TTL_MS))
  {
    var m := s.consents.Set(page, Consent(p, now + CONSENT_TTL_MS));
    DropStaleOk(m, m.keys, now);
    EvictionKeeps(DropStale(m, m.keys, now), MAX_CONSENTS);
    DropStaleFrom(m, m.keys, now);
  }

  lemma CompletePages(cfg: Config, s: Server, nonce: Option<string>, password: Option<string>, key: string, code: string, now: int, page: string)
    requires page in Complete(cfg, s, nonce, password, key, code, now).0.consents.at
    ensures page in s.consents.at && s.consents.at[page] == Complete(cfg, s, nonce, password, key, code, now).0.consents.at[page]
  {
  }

  lemma OthersKeepPages(cfg: Config, s256: string -> string, s: Server, a: Action)
    requires a.DoRegister? || a.DoToken?
    ensures Next(cfg, s256, s, a).consents == s.consents
  {
  }

  lemma StepPages(cfg: Config, s256: string -> string, s: Server, a: Action, nonce: string)
    requires s.consents.Valid() && nonce in Next(cfg, s256, s, a).consents.at
    ensures
      var r := Next(cfg, s256, s, a);
      (nonce in s.consents.at && s.consents.at[nonce] == r.consents.at[nonce]) || OpensPage(cfg, s, a, nonce, r.consents.at[nonce])
  {
    hide Begin, Complete, Validate, Exchange, Register;
    match a
    case DoAuthorize(q, page, now) =>
      if Validate(cfg, s, q).Proceed? { BeginPages(s, Validate(cfg, s, q).params, page, now, nonce); }
    case DoConsent(consent, password, key, code, now) => CompletePages(cfg, s, consent, password, key, code, now, nonce);
    case DoRestart =>
    case _ => OthersKeepPages(cfg, s256, s, a);
  }

  lemma {:induction false} DropStaleFrom(m: OMap<string, Consent>, nonces: seq<string>, now: int)
    requires m.Valid()
    ensures forall n :: n in DropStale(m, nonces, now).at ==> n in m.at && DropStale(m, nonces, now).at[n] == m.at[n]
  {
    if nonces != [] { DropStaleFrom(m, nonces[..|nonces| - 1], now); }
  }

  lemma {:induction false} PageIsDated(cfg: Config, s256: string -> string, ss: seq<Server>, acts: seq<Action>, i: nat, nonce: string)
    requires IsRun(cfg, s256, ss, acts) && i <= |acts| && nonce in ss[i].consents.at
    ensures exists j :: 0 <= j < i && OpensPage(cfg, ss[j], acts[j], nonce, ss[i].consents.at[nonce])
  {
    hide Next, OpensPage, FreshDraw, TokensOk, DistinctTokens, CodesOk, LogOk;
    if i == 0 {
      NothingOpen();
    } else {
      assert ss[i - 1 + 1] == Next(cfg, s256, ss[i - 1], acts[i - 1]);
      RunInv(cfg, s256, ss, acts, i - 1);
      StepPages(cfg, s256, ss[i - 1], acts[i - 1], nonce);
      if nonce in ss[i - 1].consents.at && ss[i - 1].consents.at[nonce] == ss[i].consents.at[nonce] { PageIsDated(cfg, s256, ss, acts, i - 1, nonce); }
    }
  }

  /** In every run a consent page answered with a code was opened, by a valid authorization request, less than
      CONSENT_TTL_MS before. */
  lemma AnsweredPageIsFresh(cfg: Config, s256: string -> string, ss: seq<Server>, acts: seq<Action>, i: nat)
    requires IsRun(cfg, s256, ss, acts) && i < |acts| && acts[i].DoConsent?
    requires Complete(cfg, ss[i], acts[i].consent, acts[i].password, acts[i].key, acts[i].code, acts[i].now).1.Ok?
    ensures exists j :: 0 <= j < i && acts[j].DoAuthorize? && Some(acts[j].nonce) == acts[i].consent
                     && Validate(cfg, ss[j], acts[j].q).Proceed? && acts[i].now < acts[j].now + CONSENT_TTL_MS
  {
    ConsentIff(cfg, ss[i], acts[i].consent, acts[i].password, acts[i].key, acts[i].code, acts[i].now);
    var nonce := acts[i].consent.value;
    PageIsDated(cfg, s256, ss, acts, i, nonce);
    var j :| 0 <= j < i && OpensPage(cfg, ss[j], acts[j], nonce, ss[i].consents.at[nonce]);
    assert acts[j].DoAuthorize? && Some(acts[j].nonce) == acts[i].consent;
  }

  // ---------------------------------------------------------------------
  // How a token is lost
  // ---------------------------------------------------------------------

  lemma KeptByPrune(ts: seq<Token>, now: int, t: Token)
    requires t in ts && t.expires > now && |Unexpired(ts, now)| <= MAX_TOKENS
    ensures t in Pruned(ts, now)
  {
    UnexpiredHas(ts, now, t);
  }

  /** What a step did that a stored token is gone: its time was over, it was the refresh token rotated, its client was
      evicted by a registration for want of a live refresh token, or MAX_TOKENS younger ones pushed it out. */
  ghost predicate LostBy(s: Server, a: Action, t: Token) {
    || (a.DoRegister? && (t.expires <= a.now || !HasLiveRefresh(s.tokens, t.client, a.now) || |s.tokens| > MAX_TOKENS))
    || (a.DoToken? && (t.expires <= a.now || |s.tokens| + 2 > MAX_TOKENS
                       || (t.kind == Refresh && t.hash == Sha256(OrEmpty(a.form.refresh)) && a.form.grant == "refresh_token")))
  }

  lemma {:induction false} UnexpiredSize(ts: seq<Token>, now: int)
    ensures |Unexpired(ts, now)| <= |ts|
  {
    if ts != [] { UnexpiredSize(ts[..|ts| - 1], now); }
  }

  lemma RegisterLoses(s: Server, body: Registration, id: string, now: int, t: Token)
    requires t in s.tokens && t !in Register(s, body, id, now).0.tokens
    ensures t.expires <= now || !HasLiveRefresh(s.tokens, t.client, now) || |s.tokens| > MAX_TOKENS
  {
    if t.expires > now && HasLiveRefresh(s.tokens, t.client, now) && |s.tokens| <= MAX_TOKENS {
      UnexpiredSize(s.tokens, now);
      KeptByPrune(s.tokens, now, t);
      var e := Evictee(s.clients, s.tokens, now);
      if e.Some? {
        var rest := NotOf(s.tokens, s.clients[e.value].id);
        assert t.client != s.clients[e.value].id;
        NotOfHas(s.tokens, s.clients[e.value].id, t);
        NotOfKept(s.tokens, s.clients[e.value].id);
        UnexpiredSize(rest, now);
        KeptByPrune(rest, now, t);
      }
    }
  }

  lemma IssueKeeps(s: Server, g: Grant, verifier: string, client: string, resource: string, scope: string, access: string, refresh: string, now: int, t: Token)
    requires t in s.tokens && t.expires > now && |s.tokens| + 2 <= MAX_TOKENS
    ensures t in Issue(s, g, verifier, client, resource, scope, access, refresh, now).0.tokens
  {
    var all := s.tokens + [Token(Sha256(access), Access, client, resource, scope, now + ACCESS_TTL_MS),
                           Token(Sha256(refresh), Refresh, client, resource, scope, now + REFRESH_TTL_MS)];
    UnexpiredSize(all, now);
    KeptByPrune(all, now, t);
  }

  lemma ExchangeLoses(s256: string -> string, s: Server, f: Form, access: string, refresh: string, now: int, t: Token)
    requires t in s.tokens && t !in Exchange(s256, s, f, access, refresh, now).0.tokens
    ensures t.expires <= now || |s.tokens| + 2 > MAX_TOKENS
         || (t.kind == Refresh && t.hash == Sha256(OrEmpty(f.refresh)) && f.grant == "refresh_token")
  {
    hide Issue;
    if t.expires > now && |s.tokens| + 2 <= MAX_TOKENS {
      if Exchange(s256, s, f, access, refresh, now).1.Err? { FailedExchangeKeeps(s256, s, f, access, refresh, now); }
      if f.grant == "authorization_code" {
        var u, p := s.(codes := s.codes - {f.code.value}), s.codes[f.code.value].params;
        IssueKeeps(u, CodeGrant(f.code.value), OrEmpty(f.verifier), f.client.value, p.resource, p.scope, access, refresh, now, t);
      } else {
        RotationLoses(s256, s, f, access, refresh, now, t);
      }
    }
  }

  lemma RotationLoses(s256: string -> string, s: Server, f: Form, access: string, refresh: string, now: int, t: Token)
    requires t in s.tokens && t.expires > now && |s.tokens| + 2 <= MAX_TOKENS && f.grant == "refresh_token"
    requires Exchange(s256, s, f, access, refresh, now).1.Ok? && t !in Exchange(s256, s, f, access, refresh, now).0.tokens
    ensures t.kind == Refresh && t.hash == Sha256(OrEmpty(f.refresh))
  {
    hide Issue;
    var n := FindToken(s.tokens, Refresh, Sha256(OrEmpty(f.refresh))).value;
    var held, u := s.tokens[n], s.(tokens := s.tokens[..n] + s.tokens[n + 1..]);
    if t != held {
      var i :| 0 <= i < |s.tokens| && s.tokens[i] == t;
      assert u.tokens[if i < n then i else i - 1] == t;
      IssueKeeps(u, RefreshGrant(OrEmpty(f.refresh)), "", f.client.value, held.resource, held.scope, access, refresh, now, t);
    }
  }

  /** A stored token is lost in no other way; a restart loses none. */
  lemma TokenIsLostOnlyBy(cfg: Config, s256: string -> string, s: Server, a: Action, t: Token)
    requires t in s.tokens && t !in Next(cfg, s256, s, a).tokens
    ensures LostBy(s, a, t)
  {
    match a
    case DoRegister(body, id, now) => RegisterLoses(s, body, id, now, t);
    case DoToken(form, access, refresh, now) => ExchangeLoses(s256, s, form, access, refresh, now, t);
    case _ =>
  }

  // ---------------------------------------------------------------------
  // What does not outlive its use
  // ---------------------------------------------------------------------

  lemma {:induction false} DropStaleSize(m: OMap<string, Consent>, nonces: seq<string>, now: int)
    requires m.Valid()
    ensures DropStale(m, nonces, now).Valid()
    ensures forall n :: n in DropStale(m, nonces, now).at <==> n in m.at && !(n in nonces && m.at[n].expires <= now)
  {
    if nonces != [] {
      assert nonces == nonces[..|nonces| - 1] + [nonces[|nonces| - 1]];
      DropStaleSize(m, nonces[..|nonces| - 1], now);
    }
  }

  /** Opening a page drops every page that has lapsed, so an open page is one that can still be answered. */
  lemma StalePagesAreDropped(s: Server, p: Params, nonce: string, now: int, page: string)
    requires s.consents.Valid() && page in Begin(s, p, nonce, now).consents.at
    ensures Begin(s, p, nonce, now).consents.at[page].expires > now
  {
    var m := s.consents.Set(nonce, Consent(p, now + CONSENT_TTL_MS));
    DropStaleSize(m, m.keys, now);
    DropStaleFrom(m, m.keys, now);
    EvictionKeeps(DropStale(m, m.keys, now), MAX_CONSENTS);
    assert page in m.keys;
  }

  lemma CompletedIsBounded(cfg: Config, s: Server, nonce: Option<string>, password: Option<string>, key: string, code: string, now: int)
    ensures |Complete(cfg, s, nonce, password, key, code, now).0.consents.keys| <= |s.consents.keys|
  {
    if nonce.Some? { PageRemoved(s.consents.keys, nonce.value); }
  }

  lemma NextIsBounded(cfg: Config, s256: string -> string, s: Server, a: Action)
    requires |s.consents.keys| <= MAX_CONSENTS
    ensures |Next(cfg, s256, s, a).consents.keys| <= MAX_CONSENTS
  {
    hide Begin, Complete, Exchange, Register, Validate;
    match a
    case DoAuthorize(q, nonce, now) => if Validate(cfg, s, q).Proceed? { BegunIsBounded(s, Validate(cfg, s, q).params, nonce, now); }
    case DoConsent(consent, password, key, code, now) => CompletedIsBounded(cfg, s, consent, password, key, code, now);
    case DoRestart =>
    case _ => OthersKeepPages(cfg, s256, s, a);
  }

  /** In every run at most MAX_CONSENTS pages are open. */
  lemma {:induction false} PagesAreBounded(cfg: Config, s256: string -> string, ss: seq<Server>, acts: seq<Action>, i: nat)
    requires IsRun(cfg, s256, ss, acts) && i <= |acts|
    ensures |ss[i].consents.keys| <= MAX_CONSENTS
  {
    hide Next, FreshDraw;
    if i == 0 {
      NothingOpen();
    } else {
      PagesAreBounded(cfg, s256, ss, acts, i - 1);
      assert ss[i - 1 + 1] == Next(cfg, s256, ss[i - 1], acts[i - 1]);
      NextIsBounded(cfg, s256, ss[i - 1], acts[i - 1]);
    }
  }

  lemma NothingOpen()
    ensures EMPTY.consents.keys == [] && EMPTY.consents.at == map[]
  {
  }

  lemma BegunIsBounded(s: Server, p: Params, nonce: string, now: int)
    ensures |Begin(s, p, nonce, now).consents.keys| <= MAX_CONSENTS
  {
  }

  lemma PageRemoved(ks: seq<string>, k: string)
    ensures |Without(ks, k)| <= |ks|
  {
  }

  /** An address whose window of failures has lapsed is forgotten by its next answer, unless that is a failure again. */
  lemma LapsedFailuresAreForgotten(cfg: Config, s: Server, nonce: Option<string>, password: Option<string>, key: string, code: string, now: int)
    ensures
      var (r, a) := Complete(cfg, s, nonce, password, key, code, now);
      && (key in r.failures ==> now - r.failures[key].windowStart <= LOGIN_WINDOW_MS)
      && (forall x :: x != key ==> (x in r.failures <==> x in s.failures) && (x in r.failures ==> r.failures[x] == s.failures[x]))
  {
  }

  /** A restart keeps clients and tokens and nothing else: no code issued and no page opened before it is answered after. */
  lemma RestartForgets(cfg: Config, s256: string -> string, s: Server, f: Form, nonce: Option<string>, password: Option<string>,
                       key: string, code: string, access: string, refresh: string, now: int)
    ensures
      var r := Restarted(s);
      && r.clients == s.clients && r.tokens == s.tokens
      && Complete(cfg, r, nonce, password, key, code, now).1 == Err(400, "invalid_request")
      && (f.grant == "authorization_code" ==> Exchange(s256, r, f, access, refresh, now).1.Err?)
  {
  }
}
