/** The connector's single-user OAuth server as a value: registration, consent, the token endpoint and the
    access check. What it answers and the state it leaves behind are functions of the request, the clock
    and the random strings drawn.

    SHA-256 of a random token is an injective constructor; the PKCE transform S256 is a parameter. */
module OAuthModel {
  import opened OrderedMaps

  const ACCESS_TTL_MS: int := 3600 * 1000
  const REFRESH_TTL_MS: int := 30 * 24 * 3600 * 1000
  const CODE_TTL_MS: int := 10 * 60000
  const CONSENT_TTL_MS: int := 10 * 60000
  const MAX_CLIENTS: nat := 32
  const MAX_TOKENS: nat := 200
  const MAX_CONSENTS: nat := 200
  const SCOPE := "ekho"
  const LOGIN_MAX_FAILURES: nat := 5
  const LOGIN_WINDOW_MS: int := 15 * 60000

  datatype Hash = Sha256(of: string)
  datatype Kind = Access | Refresh

  datatype Client = Client(id: string, redirects: seq<string>)
  datatype Token = Token(hash: Hash, kind: Kind, client: string, resource: string, scope: string, expires: int)
  datatype Params = Params(client: string, redirect: string, challenge: string, scope: string, resource: string)
  datatype PendingCode = PendingCode(params: Params, expires: int)
  datatype Consent = Consent(params: Params, expires: int)
  datatype Failures = Failures(count: nat, windowStart: int)

  datatype Config = Config(resource: string, password: string)

  /** What an authorization was spent on: a consent page, a code or a refresh token. */
  datatype Grant = ConsentGrant(nonce: string) | CodeGrant(code: string) | RefreshGrant(refresh: string)

  /** History: a code issued against a consent with the operator's password, or a token pair. */
  datatype Entry =
    | CodeIssued(nonce: string, password: string, params: Params, code: string)
    | PairIssued(grant: Grant, verifier: string, client: string, resource: string, scope: string, access: string, refresh: string)

  /** `log` and `drawn` (every random string so far) record history; no operation reads them. */
  datatype Server = Server(
    clients: seq<Client>, tokens: seq<Token>, codes: map<string, PendingCode>,
    consents: OMap<string, Consent>, failures: map<string, Failures>,
    log: seq<Entry>, drawn: set<string>)

  const EMPTY := Server([], [], map[], EmptyMap(), map[], [], {})

  datatype Result<T> = Ok(value: T) | Err(status: int, error: string)

  predicate Given(o: Option<string>) {
    o.Some? && o.value != ""
  }

  // ---------------------------------------------------------------------
  // Tokens
  // ---------------------------------------------------------------------

  function Carry(ts: seq<Token>, t: Token, keep: bool): seq<Token> {
    if keep then ts + [t] else ts
  }

  function Unexpired(ts: seq<Token>, now: int): seq<Token> {
    if ts == [] then [] else Carry(Unexpired(ts[..|ts| - 1], now), ts[|ts| - 1], ts[|ts| - 1].expires > now)
  }

  /** What a snapshot to disk keeps: unexpired tokens, the youngest MAX_TOKENS of them. */
  function Pruned(ts: seq<Token>, now: int): seq<Token> {
    Newest(Unexpired(ts, now), MAX_TOKENS)
  }

  function NotOf(ts: seq<Token>, client: string): seq<Token> {
    if ts == [] then [] else Carry(NotOf(ts[..|ts| - 1], client), ts[|ts| - 1], ts[|ts| - 1].client != client)
  }

  predicate LiveRefresh(t: Token, client: string, now: int) {
    t.kind == Refresh && t.client == client && t.expires > now
  }

  predicate HasLiveRefresh(ts: seq<Token>, client: string, now: int) {
    exists i :: 0 <= i < |ts| && LiveRefresh(ts[i], client, now)
  }

  /** The first position holding `kind` with this hash. */
  function FindToken(ts: seq<Token>, kind: Kind, hash: Hash): (r: Option<nat>)
    ensures r.Some? ==> r.value < |ts| && ts[r.value].kind == kind && ts[r.value].hash == hash
  {
    if ts == [] then None
    else
      var r := FindToken(ts[..|ts| - 1], kind, hash);
      if r.Some? then r else if ts[|ts| - 1].kind == kind && ts[|ts| - 1].hash == hash then Some(|ts| - 1) else None
  }

  function FindClient(cs: seq<Client>, id: string): (r: Option<nat>)
    ensures r.Some? ==> r.value < |cs| && cs[r.value].id == id
    ensures r.None? ==> forall i :: 0 <= i < |cs| ==> cs[i].id != id
  {
    if cs == [] then None
    else
      var r := FindClient(cs[..|cs| - 1], id);
      if r.Some? then r else if cs[|cs| - 1].id == id then Some(|cs| - 1) else None
  }

  // ---------------------------------------------------------------------
  // Registration (RFC 7591)
  // ---------------------------------------------------------------------

  /** A registration request; `acceptable` is whether its URIs and metadata pass validation. */
  datatype Registration = Registration(redirects: seq<string>, acceptable: bool)

  /** The oldest client without a live refresh token. */
  function Evictee(cs: seq<Client>, ts: seq<Token>, now: int): (r: Option<nat>)
    ensures r.Some? ==> r.value < |cs| && !HasLiveRefresh(ts, cs[r.value].id, now)
    ensures r.None? ==> forall i :: 0 <= i < |cs| ==> HasLiveRefresh(ts, cs[i].id, now)
  {
    if cs == [] then None
    else
      var r := Evictee(cs[..|cs| - 1], ts, now);
      if r.Some? then r else if HasLiveRefresh(ts, cs[|cs| - 1].id, now) then None else Some(|cs| - 1)
  }

  function RemoveClient(s: Server, i: nat): Server
    requires i < |s.clients|
  {
    s.(clients := s.clients[..i] + s.clients[i + 1..], tokens := NotOf(s.tokens, s.clients[i].id))
  }

  function AddClient(s: Server, c: Client, now: int): Server {
    s.(clients := s.clients + [c], tokens := Pruned(s.tokens, now), drawn := s.drawn + {c.id})
  }

  function Register(s: Server, body: Registration, id: string, now: int): (Server, Result<Client>) {
    var c := Client(id, body.redirects);
    if |body.redirects| == 0 || |body.redirects| > 10 || !body.acceptable then (s, Err(400, "invalid_client_metadata"))
    else if |s.clients| < MAX_CLIENTS then (AddClient(s, c, now), Ok(c))
    else
      match Evictee(s.clients, s.tokens, now)
      case None => (s, Err(429, "too_many_clients"))
      case Some(i) => (AddClient(RemoveClient(s, i), c, now), Ok(c))
  }

  // ---------------------------------------------------------------------
  // Authorization
  // ---------------------------------------------------------------------

  datatype AuthorizeQuery = AuthorizeQuery(
    client: Option<string>, redirect: Option<string>, responseType: string,
    challenge: Option<string>, challengeMethod: string, resource: Option<string>, scopeOk: bool)

  predicate Base64Url(c: char) {
    'A' <= c <= 'Z' || 'a' <= c <= 'z' || '0' <= c <= '9' || c == '_' || c == '-'
  }

  predicate WellFormedChallenge(s: string) {
    43 <= |s| <= 128 && forall i :: 0 <= i < |s| ==> Base64Url(s[i])
  }

  predicate WellFormedVerifier(s: string) {
    43 <= |s| <= 128 && forall i :: 0 <= i < |s| ==> Base64Url(s[i]) || s[i] == '.' || s[i] == '~'
  }

  /** A bad client or redirect is an error shown here; anything else is redirected back with an error code. */
  datatype Authorized = Proceed(params: Params) | RedirectError(error: string) | ShownError(error: string)

  function Validate(cfg: Config, s: Server, q: AuthorizeQuery): Authorized {
    var n := if Given(q.client) then FindClient(s.clients, q.client.value) else None;
    if n.None? then ShownError("invalid_client")
    else
      var c := s.clients[n.value];
      if !Given(q.redirect) && |c.redirects| != 1 then ShownError("invalid_request")
      else
        var redirect := if Given(q.redirect) then q.redirect.value else c.redirects[0];
        if redirect !in c.redirects then ShownError("invalid_request")
        else if q.responseType != "code" then RedirectError("unsupported_response_type")
        else if !Given(q.challenge) || !WellFormedChallenge(q.challenge.value) then RedirectError("invalid_request")
        else if q.challengeMethod != "S256" then RedirectError("invalid_request")
        else if q.resource.Some? && q.resource.value != cfg.resource then RedirectError("invalid_target")
        else if !q.scopeOk then RedirectError("invalid_scope")
        else Proceed(Params(c.id, redirect, q.challenge.value, SCOPE, cfg.resource))
  }

  function DropStale(m: OMap<string, Consent>, nonces: seq<string>, now: int): OMap<string, Consent> {
    if nonces == [] then m
    else
      var rest := DropStale(m, nonces[..|nonces| - 1], now);
      var last := nonces[|nonces| - 1];
      if last in m.at && m.at[last].expires <= now then rest.Remove(last) else rest
  }

  function Begin(s: Server, p: Params, nonce: string, now: int): Server {
    var m := s.consents.Set(nonce, Consent(p, now + CONSENT_TTL_MS));
    s.(consents := DropStale(m, m.keys, now).EvictTo(MAX_CONSENTS), drawn := s.drawn + {nonce})
  }

  function Authorize(cfg: Config, s: Server, q: AuthorizeQuery, nonce: string, now: int): (Server, Authorized) {
    var a := Validate(cfg, s, q);
    (if a.Proceed? then Begin(s, a.params, nonce, now) else s, a)
  }

  // ---------------------------------------------------------------------
  // Consent
  // ---------------------------------------------------------------------

  /** A cooling-off entry whose window has passed is forgotten. */
  function Cooled(f: map<string, Failures>, key: string, now: int): map<string, Failures> {
    if key in f && now - f[key].windowStart > LOGIN_WINDOW_MS then f - {key} else f
  }

  predicate Throttled(f: map<string, Failures>, key: string, now: int) {
    key in f && now - f[key].windowStart <= LOGIN_WINDOW_MS && f[key].count >= LOGIN_MAX_FAILURES
  }

  function CountFailure(f: map<string, Failures>, key: string, now: int): map<string, Failures> {
    if key !in f || now - f[key].windowStart > LOGIN_WINDOW_MS then f[key := Failures(1, now)]
    else f[key := f[key].(count := f[key].count + 1)]
  }

  function IssueCode(s: Server, nonce: string, password: string, p: Params, key: string, code: string, now: int): Server {
    s.(consents := s.consents.Remove(nonce), failures := s.failures - {key},
       codes := s.codes[code := PendingCode(p, now + CODE_TTL_MS)],
       log := s.log + [CodeIssued(nonce, password, p, code)], drawn := s.drawn + {code})
  }

  function Complete(cfg: Config, s: Server, nonce: Option<string>, password: Option<string>, key: string, code: string, now: int): (Server, Result<string>) {
    var t := s.(failures := Cooled(s.failures, key, now));
    if Throttled(s.failures, key, now) then (t, Err(429, "slow_down"))
    else if !Given(nonce) || nonce.value !in s.consents.at || s.consents.at[nonce.value].expires <= now then (t, Err(400, "invalid_request"))
    else if !Given(password) || password.value != cfg.password then
      (t.(failures := CountFailure(t.failures, key, now)), Err(401, "access_denied"))
    else (IssueCode(t, nonce.value, password.value, s.consents.at[nonce.value].params, key, code, now), Ok(code))
  }

  // ---------------------------------------------------------------------
  // The token endpoint
  // ---------------------------------------------------------------------

  datatype Form = Form(
    grant: string, client: Option<string>, code: Option<string>, redirect: Option<string>,
    verifier: Option<string>, refresh: Option<string>, resource: Option<string>)

  datatype Pair = Pair(access: string, refresh: string, scope: string)

  function OrEmpty(o: Option<string>): string {
    if o.Some? then o.value else ""
  }

  predicate Mismatch(asked: Option<string>, stored: string) {
    asked.Some? && asked.value != stored
  }

  function Issue(s: Server, g: Grant, verifier: string, client: string, resource: string, scope: string,
                 access: string, refresh: string, now: int): (Server, Result<Pair>) {
    var pair := [Token(Sha256(access), Access, client, resource, scope, now + ACCESS_TTL_MS),
                 Token(Sha256(refresh), Refresh, client, resource, scope, now + REFRESH_TTL_MS)];
    (s.(tokens := Pruned(s.tokens + pair, now), drawn := s.drawn + {access, refresh},
        log := s.log + [PairIssued(g, verifier, client, resource, scope, access, refresh)]),
     Ok(Pair(access, refresh, scope)))
  }

  /** The code is spent even if the request then fails. */
  function RedeemCode(s256: string -> string, s: Server, client: string, f: Form, access: string, refresh: string, now: int): (Server, Result<Pair>) {
    var t := if Given(f.code) then s.(codes := s.codes - {f.code.value}) else s;
    if !Given(f.code) || f.code.value !in s.codes || s.codes[f.code.value].expires <= now then (t, Err(400, "invalid_grant"))
    else
      var p := s.codes[f.code.value].params;
      if p.client != client || Mismatch(f.redirect, p.redirect) then (t, Err(400, "invalid_grant"))
      else if !WellFormedVerifier(OrEmpty(f.verifier)) || s256(OrEmpty(f.verifier)) != p.challenge then (t, Err(400, "invalid_grant"))
      else if Mismatch(f.resource, p.resource) then (t, Err(400, "invalid_target"))
      else Issue(t, CodeGrant(f.code.value), OrEmpty(f.verifier), client, p.resource, p.scope, access, refresh, now)
  }

  function Rotate(s: Server, client: string, f: Form, access: string, refresh: string, now: int): (Server, Result<Pair>) {
    var n := FindToken(s.tokens, Refresh, Sha256(OrEmpty(f.refresh)));
    if n.None? || s.tokens[n.value].expires <= now then (s, Err(400, "invalid_grant"))
    else
      var held := s.tokens[n.value];
      if held.client != client then (s, Err(400, "invalid_grant"))
      else if Mismatch(f.resource, held.resource) then (s, Err(400, "invalid_target"))
      else Issue(s.(tokens := s.tokens[..n.value] + s.tokens[n.value + 1..]), RefreshGrant(OrEmpty(f.refresh)), "",
                 client, held.resource, held.scope, access, refresh, now)
  }

  function Exchange(s256: string -> string, s: Server, f: Form, access: string, refresh: string, now: int): (Server, Result<Pair>) {
    if !Given(f.client) || FindClient(s.clients, f.client.value).None? then (s, Err(401, "invalid_client"))
    else if f.grant == "authorization_code" then RedeemCode(s256, s, f.client.value, f, access, refresh, now)
    else if f.grant == "refresh_token" then Rotate(s, f.client.value, f, access, refresh, now)
    else (s, Err(400, "unsupported_grant_type"))
  }

  // ---------------------------------------------------------------------
  // The resource server
  // ---------------------------------------------------------------------

  function VerifyAccess(cfg: Config, s: Server, token: string, now: int): Result<string> {
    var n := FindToken(s.tokens, Access, Sha256(token));
    if n.None? then Err(401, "unknown token")
    else if s.tokens[n.value].expires <= now then Err(401, "token expired")
    else if s.tokens[n.value].resource != cfg.resource then Err(401, "token is for another resource")
    else Ok(s.tokens[n.value].client)
  }

  /** Only clients and tokens are on disk. */
  function Restarted(s: Server): Server {
    s.(codes := map[], consents := EmptyMap(), failures := map[])
  }
}
