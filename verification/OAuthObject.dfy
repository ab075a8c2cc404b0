/** The OAuth server object: its registries updated in place by each request. */
module OAuthObject {
  import opened OrderedMaps
  import opened OAuthModel

  class OAuthServer {
    var clients: seq<Client>
    var tokens: seq<Token>
    var codes: map<string, PendingCode>
    var consents: OMap<string, Consent>
    var loginFailures: map<string, Failures>
    ghost var log: seq<Entry>
    ghost var drawn: set<string>
    const cfg: Config

    ghost function Value(): Server
      reads this
    {
      Server(clients, tokens, codes, consents, loginFailures, log, drawn)
    }

    constructor (cfg: Config)
      ensures Value() == EMPTY && this.cfg == cfg
    {
      this.cfg := cfg;
      clients, tokens, codes, consents, loginFailures := [], [], map[], EmptyMap(), map[];
      log, drawn := [], {};
    }

    /** Drop expired tokens, then the oldest ones past the bound. */
    method Persist(now: int)
      modifies this
      ensures Value() == old(Value()).(tokens := Pruned(old(tokens), now))
    {
      var was, kept := tokens, [];
      for i := 0 to |was|
        invariant kept == Unexpired(was[..i], now)
        invariant Value() == old(Value())
      {
        assert was[..i + 1][..i] == was[..i];
        if was[i].expires > now { kept := kept + [was[i]]; }
      }
      assert was[..|was|] == was;
      tokens := kept;
      while |tokens| > MAX_TOKENS
        invariant Value() == old(Value()).(tokens := tokens)
        invariant |tokens| <= |kept| && tokens == kept[|kept| - |tokens|..]
        invariant |tokens| >= MAX_TOKENS || tokens == kept
        decreases |tokens|
      {
        tokens := tokens[1..];
      }
    }

    method HasLiveRefreshToken(client: string, now: int) returns (live: bool)
      ensures live <==> HasLiveRefresh(tokens, client, now)
    {
      for i := 0 to |tokens|
        invariant forall k :: 0 <= k < i ==> !LiveRefresh(tokens[k], client, now)
      {
        if LiveRefresh(tokens[i], client, now) { return true; }
      }
      return false;
    }

    method FindEvictee(now: int) returns (r: Option<nat>)
      ensures r == Evictee(clients, tokens, now)
    {
      r := None;
      for i := 0 to |clients|
        invariant r == Evictee(clients[..i], tokens, now)
      {
        assert clients[..i + 1][..i] == clients[..i];
        var live := HasLiveRefreshToken(clients[i].id, now);
        if r.None? && !live { r := Some(i); }
      }
      assert clients[..|clients|] == clients;
    }

    method RemoveClientAt(n: nat)
      requires n < |clients|
      modifies this
      ensures Value() == RemoveClient(old(Value()), n)
    {
      var gone := clients[n].id;
      clients := clients[..n] + clients[n + 1..];
      var was, kept := tokens, [];
      for i := 0 to |was|
        invariant kept == NotOf(was[..i], gone)
        invariant Value() == old(Value()).(clients := clients)
      {
        assert was[..i + 1][..i] == was[..i];
        if was[i].client != gone { kept := kept + [was[i]]; }
      }
      assert was[..|was|] == was;
      tokens := kept;
    }

    method RegisterClient(body: Registration, id: string, now: int) returns (r: Result<Client>)
      modifies this
      ensures (Value(), r) == Register(old(Value()), body, id, now)
    {
      if |body.redirects| == 0 || |body.redirects| > 10 || !body.acceptable {
        return Err(400, "invalid_client_metadata");
      }
      if |clients| >= MAX_CLIENTS {
        var n := FindEvictee(now);
        if n.None? { return Err(429, "too_many_clients"); }
        RemoveClientAt(n.value);
      }
      var c := Client(id, body.redirects);
      clients := clients + [c];
      drawn := drawn + {id};
      Persist(now);
      r := Ok(c);
    }

    method DropStaleConsents(now: int)
      modifies this
      ensures Value() == old(Value()).(consents := DropStale(old(consents), old(consents.keys), now))
    {
      var all := consents;
      for i := 0 to |all.keys|
        invariant consents == DropStale(all, all.keys[..i], now)
        invariant Value() == old(Value()).(consents := consents)
      {
        var k := all.keys[i];
        assert all.keys[..i + 1][..i] == all.keys[..i];
        if k in all.at && all.at[k].expires <= now { consents := consents.Remove(k); }
      }
      assert all.keys[..|all.keys|] == all.keys;
    }

    method EvictConsents()
      modifies this
      ensures Value() == old(Value()).(consents := old(consents).EvictTo(MAX_CONSENTS))
    {
      while |consents.keys| > MAX_CONSENTS
        invariant consents.EvictTo(MAX_CONSENTS) == old(consents).EvictTo(MAX_CONSENTS)
        invariant Value() == old(Value()).(consents := consents)
        decreases |consents.keys|
      {
        consents := consents.DropOldest();
      }
    }

    /** Mint the one-time consent nonce; stale and surplus pages are forgotten. */
    method BeginConsent(p: Params, nonce: string, now: int)
      modifies this
      ensures Value() == Begin(old(Value()), p, nonce, now)
    {
      consents := consents.Set(nonce, Consent(p, now + CONSENT_TTL_MS));
      drawn := drawn + {nonce};
      DropStaleConsents(now);
      EvictConsents();
    }

    method LoginThrottled(key: string, now: int) returns (throttled: bool)
      modifies this
      ensures throttled == Throttled(old(loginFailures), key, now)
      ensures Value() == old(Value()).(failures := Cooled(old(loginFailures), key, now))
    {
      if key !in loginFailures { return false; }
      if now - loginFailures[key].windowStart > LOGIN_WINDOW_MS {
        loginFailures := loginFailures - {key};
        return false;
      }
      return loginFailures[key].count >= LOGIN_MAX_FAILURES;
    }

    method CompleteConsent(nonce: Option<string>, password: Option<string>, key: string, code: string, now: int) returns (r: Result<string>)
      modifies this
      ensures (Value(), r) == Complete(cfg, old(Value()), nonce, password, key, code, now)
    {
      var throttled := LoginThrottled(key, now);
      if throttled { return Err(429, "slow_down"); }
      if !Given(nonce) || nonce.value !in consents.at || consents.at[nonce.value].expires <= now {
        return Err(400, "invalid_request");
      }
      if !Given(password) || password.value != cfg.password {
        loginFailures := CountFailure(loginFailures, key, now);
        return Err(401, "access_denied");
      }
      var p := consents.at[nonce.value].params;
      consents := consents.Remove(nonce.value);
      loginFailures := loginFailures - {key};
      codes := codes[code := PendingCode(p, now + CODE_TTL_MS)];
      log, drawn := log + [CodeIssued(nonce.value, password.value, p, code)], drawn + {code};
      r := Ok(code);
    }

    method IssueTokens(ghost g: Grant, ghost verifier: string, client: string, resource: string, scope: string,
                       access: string, refresh: string, now: int) returns (r: Result<Pair>)
      modifies this
      ensures (Value(), r) == Issue(old(Value()), g, verifier, client, resource, scope, access, refresh, now)
    {
      tokens := tokens + [Token(Sha256(access), Access, client, resource, scope, now + ACCESS_TTL_MS),
                          Token(Sha256(refresh), Refresh, client, resource, scope, now + REFRESH_TTL_MS)];
      log, drawn := log + [PairIssued(g, verifier, client, resource, scope, access, refresh)], drawn + {access, refresh};
      Persist(now);
      r := Ok(Pair(access, refresh, scope));
    }

    method TokenForCode(s256: string -> string, client: string, f: Form, access: string, refresh: string, now: int) returns (r: Result<Pair>)
      modifies this
      ensures (Value(), r) == RedeemCode(s256, old(Value()), client, f, access, refresh, now)
    {
      if !Given(f.code) { return Err(400, "invalid_grant"); }
      var pending := if f.code.value in codes then Some(codes[f.code.value]) else None;
      codes := codes - {f.code.value};
      if pending.None? || pending.value.expires <= now { return Err(400, "invalid_grant"); }
      var p := pending.value.params;
      if p.client != client { return Err(400, "invalid_grant"); }
      if Mismatch(f.redirect, p.redirect) { return Err(400, "invalid_grant"); }
      var verifier := OrEmpty(f.verifier);
      if !WellFormedVerifier(verifier) { return Err(400, "invalid_grant"); }
      if s256(verifier) != p.challenge { return Err(400, "invalid_grant"); }
      if Mismatch(f.resource, p.resource) { return Err(400, "invalid_target"); }
      r := IssueTokens(CodeGrant(f.code.value), verifier, client, p.resource, p.scope, access, refresh, now);
    }

    method TokenForRefresh(client: string, f: Form, access: string, refresh: string, now: int) returns (r: Result<Pair>)
      modifies this
      ensures (Value(), r) == Rotate(old(Value()), client, f, access, refresh, now)
    {
      var n := FindToken(tokens, Refresh, Sha256(OrEmpty(f.refresh)));
      if n.None? || tokens[n.value].expires <= now { return Err(400, "invalid_grant"); }
      var stored := tokens[n.value];
      if stored.client != client { return Err(400, "invalid_grant"); }
      if Mismatch(f.resource, stored.resource) { return Err(400, "invalid_target"); }
      tokens := tokens[..n.value] + tokens[n.value + 1..];
      r := IssueTokens(RefreshGrant(OrEmpty(f.refresh)), "", client, stored.resource, stored.scope, access, refresh, now);
    }

    method TokenRequest(s256: string -> string, f: Form, access: string, refresh: string, now: int) returns (r: Result<Pair>)
      modifies this
      ensures (Value(), r) == Exchange(s256, old(Value()), f, access, refresh, now)
    {
      if !Given(f.client) || FindClient(clients, f.client.value).None? { return Err(401, "invalid_client"); }
      if f.grant == "authorization_code" {
        r := TokenForCode(s256, f.client.value, f, access, refresh, now);
      } else if f.grant == "refresh_token" {
        r := TokenForRefresh(f.client.value, f, access, refresh, now);
      } else {
        r := Err(400, "unsupported_grant_type");
      }
    }

    method VerifyAccessToken(token: string, now: int) returns (r: Result<string>)
      ensures r == VerifyAccess(cfg, Value(), token, now)
    {
      var n := FindToken(tokens, Access, Sha256(token));
      if n.None? { return Err(401, "unknown token"); }
      var stored := tokens[n.value];
      if stored.expires <= now { return Err(401, "token expired"); }
      if stored.resource != cfg.resource { return Err(401, "token is for another resource"); }
      r := Ok(stored.client);
    }
  }
}
