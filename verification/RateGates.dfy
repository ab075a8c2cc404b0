/** The two other limiters that count in fixed windows: the peer rate gate of the reply loop and the failed
    passwords of the OAuth consent page. */
module RateGates {
  import opened OrderedMaps
  import opened Messages
  import opened FixedWindow
  import OAuthModel

  const PEER_RATE_MAX: nat := 5
  const PEER_RATE_WINDOW_MS: int := 60000

  const PEER_RULE := Rule(PEER_RATE_MAX, PEER_RATE_WINDOW_MS, true)

  // ---------------------------------------------------------------------
  // The peer rate gate
  // ---------------------------------------------------------------------

  /** The gate's attempts in a tick: one per peer message, none for the operator. */
  function PeerAttempts(ms: seq<Message>, now: int): seq<Attempt> {
    if ms == [] then []
    else
      var m := ms[|ms| - 1];
      PeerAttempts(ms[..|ms| - 1], now) + (if m.kind == Operator then [] else [Attempt(m.sender, now)])
  }

  function GateAfter(w: Windows, ms: seq<Message>, now: int): Windows {
    if ms == [] then w
    else
      var before, m := GateAfter(w, ms[..|ms| - 1], now), ms[|ms| - 1];
      if m.kind == Operator then before else KeyedHit(PEER_RULE, before, Attempt(m.sender, now))
  }

  /** What survives the gate: the operator always, a peer while its window has room. */
  function GateKept(w: Windows, ms: seq<Message>, now: int): seq<Message> {
    if ms == [] then []
    else
      var before, m := GateAfter(w, ms[..|ms| - 1], now), ms[|ms| - 1];
      GateKept(w, ms[..|ms| - 1], now)
        + (if m.kind == Operator || !Blocked(PEER_RULE, Of(before, m.sender), now) then [m] else [])
  }

  class PeerRateGate {
    var recentInboundByPeer: Windows

    constructor ()
      ensures recentInboundByPeer == map[]
    {
      recentInboundByPeer := map[];
    }

    method Apply(ms: seq<Message>, now: int) returns (kept: seq<Message>)
      modifies this
      ensures kept == GateKept(old(recentInboundByPeer), ms, now)
      ensures recentInboundByPeer == GateAfter(old(recentInboundByPeer), ms, now)
    {
      kept := [];
      for i := 0 to |ms|
        invariant kept == GateKept(old(recentInboundByPeer), ms[..i], now)
        invariant recentInboundByPeer == GateAfter(old(recentInboundByPeer), ms[..i], now)
      {
        var m := ms[i];
        assert ms[..i + 1][..i] == ms[..i];
        if m.kind == Operator {
          kept := kept + [m];
        } else {
          var expired := m.sender !in recentInboundByPeer || now - recentInboundByPeer[m.sender].start > PEER_RATE_WINDOW_MS;
          var entry := if expired then Window(0, now) else recentInboundByPeer[m.sender];
          if entry.count < PEER_RATE_MAX {
            recentInboundByPeer := recentInboundByPeer[m.sender := Window(entry.count + 1, entry.start)];
            kept := kept + [m];
          }
        }
      }
      assert ms[..|ms|] == ms;
    }
  }

  /** A tick's gate call: the messages that passed the qualifying filter, and the clock. */
  datatype Pass = Pass(messages: seq<Message>, now: int)

  function AttemptsOf(ps: seq<Pass>): seq<Attempt> {
    if ps == [] then [] else AttemptsOf(ps[..|ps| - 1]) + PeerAttempts(ps[|ps| - 1].messages, ps[|ps| - 1].now)
  }

  function AfterPasses(ps: seq<Pass>): Windows {
    if ps == [] then map[] else GateAfter(AfterPasses(ps[..|ps| - 1]), ps[|ps| - 1].messages, ps[|ps| - 1].now)
  }

  function FromPeer(ms: seq<Message>, peer: string): nat {
    if ms == [] then 0
    else FromPeer(ms[..|ms| - 1], peer) + (if ms[|ms| - 1].kind != Operator && ms[|ms| - 1].sender == peer then 1 else 0)
  }

  /** How many of `peer`'s messages the gate has kept since `from`. */
  function KeptSince(ps: seq<Pass>, peer: string, from: int): nat {
    if ps == [] then 0
    else
      var p := ps[|ps| - 1];
      KeptSince(ps[..|ps| - 1], peer, from)
        + (if p.now >= from then FromPeer(GateKept(AfterPasses(ps[..|ps| - 1]), p.messages, p.now), peer) else 0)
  }

  ghost predicate Clocked(ps: seq<Pass>, until: int) {
    ps == [] || (ps[|ps| - 1].now <= until && Clocked(ps[..|ps| - 1], ps[|ps| - 1].now))
  }

  lemma KeyedSnoc(atts: seq<Attempt>, a: Attempt, peer: string, from: int)
    ensures KeyedAfter(PEER_RULE, map[], atts + [a]) == KeyedHit(PEER_RULE, KeyedAfter(PEER_RULE, map[], atts), a)
    ensures KeyedAdmitted(PEER_RULE, map[], atts + [a], peer, from)
         == KeyedAdmitted(PEER_RULE, map[], atts, peer, from)
            + (if a.key == peer && a.now >= from && !Blocked(PEER_RULE, Of(KeyedAfter(PEER_RULE, map[], atts), peer), a.now) then 1 else 0)
  {
    assert (atts + [a])[..|atts|] == atts;
  }

  lemma FromPeerSnoc(ms: seq<Message>, m: Message, peer: string)
    ensures FromPeer(ms + [m], peer) == FromPeer(ms, peer) + (if m.kind != Operator && m.sender == peer then 1 else 0)
  {
    assert (ms + [m])[..|ms|] == ms;
  }

  lemma GateSnoc(w: Windows, ms: seq<Message>, m: Message, now: int)
    ensures PeerAttempts(ms + [m], now) == PeerAttempts(ms, now) + (if m.kind == Operator then [] else [Attempt(m.sender, now)])
    ensures GateAfter(w, ms + [m], now)
         == (if m.kind == Operator then GateAfter(w, ms, now) else KeyedHit(PEER_RULE, GateAfter(w, ms, now), Attempt(m.sender, now)))
    ensures GateKept(w, ms + [m], now)
         == GateKept(w, ms, now) + (if m.kind == Operator || !Blocked(PEER_RULE, Of(GateAfter(w, ms, now), m.sender), now) then [m] else [])
  {
    assert (ms + [m])[..|ms|] == ms;
  }

  /** The gate over `ms`, after the attempts `base`, is the keyed limiter over both. */
  ghost predicate Keyed(base: seq<Attempt>, w: Windows, ms: seq<Message>, now: int, peer: string, from: int) {
    var atts := base + PeerAttempts(ms, now);
    && GateAfter(w, ms, now) == KeyedAfter(PEER_RULE, map[], atts)
    && KeyedAdmitted(PEER_RULE, map[], atts, peer, from)
       == KeyedAdmitted(PEER_RULE, map[], base, peer, from) + (if now >= from then FromPeer(GateKept(w, ms, now), peer) else 0)
  }

  lemma OperatorStep(base: seq<Attempt>, w: Windows, ms: seq<Message>, m: Message, now: int, peer: string, from: int)
    requires Keyed(base, w, ms, now, peer, from) && m.kind == Operator
    ensures Keyed(base, w, ms + [m], now, peer, from)
  {
    GateSnoc(w, ms, m, now);
    FromPeerSnoc(GateKept(w, ms, now), m, peer);
    assert PeerAttempts(ms, now) + [] == PeerAttempts(ms, now);
  }

  lemma PeerStep(base: seq<Attempt>, w: Windows, ms: seq<Message>, m: Message, now: int, peer: string, from: int, atts: seq<Attempt>)
    requires Keyed(base, w, ms, now, peer, from) && m.kind != Operator && atts == base + PeerAttempts(ms, now)
    ensures Keyed(base, w, ms + [m], now, peer, from)
  {
    hide PeerAttempts, GateAfter, GateKept, FromPeer, KeyedAfter, KeyedAdmitted, KeyedHit;
    var a, kept := Attempt(m.sender, now), GateKept(w, ms, now);
    KeyedSnoc(atts, a, peer, from);
    GateSnoc(w, ms, m, now);
    assert base + (PeerAttempts(ms, now) + [a]) == atts + [a];
    FromPeerSnoc(kept, m, peer);
    assert kept + [] == kept;
  }

  lemma {:induction false} GateIsKeyed(base: seq<Attempt>, w: Windows, ms: seq<Message>, now: int, peer: string, from: int)
    requires w == KeyedAfter(PEER_RULE, map[], base)
    ensures Keyed(base, w, ms, now, peer, from)
  {
    if ms == [] {
      assert base + [] == base;
    } else {
      var n := |ms| - 1;
      GateIsKeyed(base, w, ms[..n], now, peer, from);
      assert ms[..n] + [ms[n]] == ms;
      if ms[n].kind == Operator {
        OperatorStep(base, w, ms[..n], ms[n], now, peer, from);
      } else {
        PeerStep(base, w, ms[..n], ms[n], now, peer, from, base + PeerAttempts(ms[..n], now));
      }
    }
  }

  lemma {:induction false} PassesAreKeyed(ps: seq<Pass>, peer: string, from: int)
    ensures AfterPasses(ps) == KeyedAfter(PEER_RULE, map[], AttemptsOf(ps))
    ensures KeptSince(ps, peer, from) == KeyedAdmitted(PEER_RULE, map[], AttemptsOf(ps), peer, from)
  {
    if ps != [] {
      var n := |ps| - 1;
      PassesAreKeyed(ps[..n], peer, from);
      GateIsKeyed(AttemptsOf(ps[..n]), AfterPasses(ps[..n]), ps[n].messages, ps[n].now, peer, from);
    }
  }

  lemma ClockedSnoc(atts: seq<Attempt>, a: Attempt, until: int)
    requires FixedWindow.Clocked(atts, a.now) && a.now <= until
    ensures FixedWindow.Clocked(atts + [a], until)
  {
    assert (atts + [a])[..|atts|] == atts;
  }

  lemma {:induction false} AttemptsClimb(base: seq<Attempt>, ms: seq<Message>, now: int)
    requires FixedWindow.Clocked(base, now)
    ensures FixedWindow.Clocked(base + PeerAttempts(ms, now), now)
  {
    if ms == [] {
      assert base + [] == base;
    } else {
      var n := |ms| - 1;
      var atts := base + PeerAttempts(ms[..n], now);
      AttemptsClimb(base, ms[..n], now);
      if ms[n].kind == Operator {
        assert base + PeerAttempts(ms, now) == atts;
      } else {
        ClockedSnoc(atts, Attempt(ms[n].sender, now), now);
        assert base + PeerAttempts(ms, now) == atts + [Attempt(ms[n].sender, now)];
      }
    }
  }

  lemma ClockedWider(atts: seq<Attempt>, until: int, later: int)
    requires FixedWindow.Clocked(atts, until) && until <= later
    ensures FixedWindow.Clocked(atts, later)
  {
  }

  lemma {:induction false} PassesClimb(ps: seq<Pass>, until: int)
    requires Clocked(ps, until)
    ensures FixedWindow.Clocked(AttemptsOf(ps), until)
  {
    if ps != [] {
      var n := |ps| - 1;
      PassesClimb(ps[..n], ps[n].now);
      AttemptsClimb(AttemptsOf(ps[..n]), ps[n].messages, ps[n].now);
      ClockedWider(AttemptsOf(ps), ps[n].now, until);
    }
  }

  /** Over whole runs with a nondecreasing clock: in any closed interval of PEER_RATE_WINDOW_MS, the gate keeps
      at most 2 * PEER_RATE_MAX - 1 messages of one peer. */
  lemma PeerGateBound(ps: seq<Pass>, peer: string, from: int)
    requires Clocked(ps, from + PEER_RATE_WINDOW_MS)
    ensures KeptSince(ps, peer, from) <= 2 * PEER_RATE_MAX - 1
  {
    PassesAreKeyed(ps, peer, from);
    PassesClimb(ps, from + PEER_RATE_WINDOW_MS);
    KeyedAtMostTwice(PEER_RULE, AttemptsOf(ps), peer, from);
  }

  /** One message at a time. */
  function OneByOne(m: Message, ts: seq<int>): seq<Pass> {
    if ts == [] then [] else OneByOne(m, ts[..|ts| - 1]) + [Pass([m], ts[|ts| - 1])]
  }

  lemma OnePeerMessage(m: Message, now: int)
    requires m.kind != Operator
    ensures PeerAttempts([m], now) == [Attempt(m.sender, now)]
  {
    assert [m][..0] == [];
  }

  lemma TimesSnoc(atts: seq<Attempt>, a: Attempt)
    ensures TimesOf(atts + [a], a.key) == TimesOf(atts, a.key) + [a.now]
  {
    assert (atts + [a])[..|atts|] == atts;
  }

  lemma PassesSnoc(ps: seq<Pass>, p: Pass, until: int)
    ensures AttemptsOf(ps + [p]) == AttemptsOf(ps) + PeerAttempts(p.messages, p.now)
    ensures Clocked(ps + [p], until) <==> p.now <= until && Clocked(ps, p.now)
  {
    assert (ps + [p])[..|ps|] == ps;
  }

  ghost predicate Gated(m: Message, ps: seq<Pass>, ts: seq<int>, until: int) {
    TimesOf(AttemptsOf(ps), m.sender) == ts && Clocked(ps, until)
  }

  lemma OneMorePass(m: Message, ps: seq<Pass>, ts: seq<int>, t: int, until: int)
    requires m.kind != Operator && Gated(m, ps, ts, t) && t <= until
    ensures Gated(m, ps + [Pass([m], t)], ts + [t], until)
  {
    PassesSnoc(ps, Pass([m], t), until);
    OnePeerMessage(m, t);
    TimesSnoc(AttemptsOf(ps), Attempt(m.sender, t));
  }

  lemma {:induction false} OneByOneTimes(m: Message, ts: seq<int>, until: int)
    requires m.kind != Operator && Climbing(ts, until)
    ensures Gated(m, OneByOne(m, ts), ts, until)
  {
    if ts != [] {
      var n := |ts| - 1;
      var init := ts[..n];
      OneByOneTimes(m, init, ts[n]);
      OneMorePass(m, OneByOne(m, init), init, ts[n], until);
      assert init + [ts[n]] == ts;
    }
  }

  /** The bound is met: one message, then four at the end of its window, then five in the next. */
  lemma PeerGateBoundIsReached(m: Message)
    requires m.kind != Operator
    ensures
      var ps := OneByOne(m, Filling(PEER_RULE));
      Clocked(ps, 2 * PEER_RATE_WINDOW_MS) && KeptSince(ps, m.sender, PEER_RATE_WINDOW_MS) == 2 * PEER_RATE_MAX - 1
  {
    var ts := Filling(PEER_RULE);
    var ps := OneByOne(m, ts);
    LateFilling(PEER_RULE);
    OrderedClimbs(ts, 2 * PEER_RATE_WINDOW_MS);
    OneByOneTimes(m, ts, 2 * PEER_RATE_WINDOW_MS);
    PassesAreKeyed(ps, m.sender, PEER_RATE_WINDOW_MS);
    KeysAreIndependent(PEER_RULE, map[], AttemptsOf(ps), m.sender, PEER_RATE_WINDOW_MS);
  }

  // ---------------------------------------------------------------------
  // Wrong passwords on the consent page
  // ---------------------------------------------------------------------

  const CONSENT_RULE := Rule(OAuthModel.LOGIN_MAX_FAILURES, OAuthModel.LOGIN_WINDOW_MS, true)

  function AsWindow(f: OAuthModel.Failures): Window {
    Window(f.count, f.windowStart)
  }

  /** The page's window for a key is `w`, or is forgotten because `w` had lapsed. */
  ghost predicate Reflects(s: OAuthModel.Server, key: string, w: Option<Window>, now: int) {
    if key in s.failures then w == Some(AsWindow(s.failures[key])) else w.Some? ==> Expired(CONSENT_RULE, w.value, now)
  }

  datatype Call = Call(nonce: Option<string>, password: Option<string>, key: string, code: string, now: int)

  function Answer(cfg: OAuthModel.Config, s: OAuthModel.Server, c: Call): OAuthModel.Result<string> {
    OAuthModel.Complete(cfg, s, c.nonce, c.password, c.key, c.code, c.now).1
  }

  predicate IsWrongPassword(r: OAuthModel.Result<string>) {
    r.Err? && r.status == 401
  }

  /** Submissions of the consent form in one process lifetime; whatever else the server does in between
      leaves the failure counts alone. */
  ghost predicate IsSession(cfg: OAuthModel.Config, ss: seq<OAuthModel.Server>, cs: seq<Call>) {
    && |ss| == |cs| + 1 && ss[0].failures == map[]
    && forall i :: 0 <= i < |cs| ==>
         ss[i + 1].failures == OAuthModel.Complete(cfg, ss[i], cs[i].nonce, cs[i].password, cs[i].key, cs[i].code, cs[i].now).0.failures
  }

  /** When `key`'s submissions were answered as wrong passwords. */
  function WrongAt(cfg: OAuthModel.Config, ss: seq<OAuthModel.Server>, cs: seq<Call>, key: string): seq<int>
    requires |ss| > |cs|
  {
    if cs == [] then []
    else
      var n := |cs| - 1;
      WrongAt(cfg, ss, cs[..n], key) + (if cs[n].key == key && IsWrongPassword(Answer(cfg, ss[n], cs[n])) then [cs[n].now] else [])
  }

  ghost predicate NoSuccess(cfg: OAuthModel.Config, ss: seq<OAuthModel.Server>, cs: seq<Call>, key: string)
    requires |ss| > |cs|
  {
    forall i :: 0 <= i < |cs| && cs[i].key == key ==> Answer(cfg, ss[i], cs[i]).Err?
  }

  ghost predicate CallsClocked(cs: seq<Call>, until: int) {
    cs == [] || (cs[|cs| - 1].now <= until && CallsClocked(cs[..|cs| - 1], cs[|cs| - 1].now))
  }

  /** A wrong password is a hit of the window, one that was not full; no other refusal counts. */
  lemma CallReflects(cfg: OAuthModel.Config, s: OAuthModel.Server, c: Call, key: string, w: Option<Window>)
    requires Reflects(s, key, w, c.now) && (c.key == key ==> Answer(cfg, s, c).Err?)
    ensures
      var r := OAuthModel.Complete(cfg, s, c.nonce, c.password, c.key, c.code, c.now).0;
      if c.key == key && IsWrongPassword(Answer(cfg, s, c)) then
        !Blocked(CONSENT_RULE, w, c.now) && Reflects(r, key, Hit(CONSENT_RULE, w, c.now), c.now)
      else Reflects(r, key, w, c.now)
  {
  }

  lemma {:induction false} SessionReflects(cfg: OAuthModel.Config, ss: seq<OAuthModel.Server>, cs: seq<Call>, key: string, until: int)
    requires IsSession(cfg, ss, cs) && NoSuccess(cfg, ss, cs, key) && CallsClocked(cs, until)
    ensures Reflects(ss[|cs|], key, After(CONSENT_RULE, None, WrongAt(cfg, ss, cs, key)), until)
    ensures AllCounted(CONSENT_RULE, WrongAt(cfg, ss, cs, key)) && Climbing(WrongAt(cfg, ss, cs, key), until)
  {
    if cs != [] {
      var n := |cs| - 1;
      var c, ts := cs[n], WrongAt(cfg, ss[..|ss| - 1], cs[..n], key);
      SessionReflects(cfg, ss[..|ss| - 1], cs[..n], key, c.now);
      SameWrong(cfg, ss, ss[..|ss| - 1], cs[..n], key);
      ClimbingWider(ts, c.now, until);
      CallReflects(cfg, ss[n], c, key, After(CONSENT_RULE, None, ts));
      assert (ts + [c.now])[..|ts|] == ts && ts + [] == ts;
    }
  }

  lemma {:induction false} SameWrong(cfg: OAuthModel.Config, ss: seq<OAuthModel.Server>, ts: seq<OAuthModel.Server>, cs: seq<Call>, key: string)
    requires |ss| >= |ts| > |cs| && forall i :: 0 <= i < |ts| ==> ss[i] == ts[i]
    ensures WrongAt(cfg, ss, cs, key) == WrongAt(cfg, ts, cs, key)
  {
    if cs != [] { SameWrong(cfg, ss, ts, cs[..|cs| - 1], key); }
  }

  /** In any closed interval of LOGIN_WINDOW_MS, one client address without a success in the session gets at
      most 2 * LOGIN_MAX_FAILURES - 1 guesses at the operator's password. */
  lemma GuessesAreBounded(cfg: OAuthModel.Config, ss: seq<OAuthModel.Server>, cs: seq<Call>, key: string, from: int)
    requires IsSession(cfg, ss, cs) && NoSuccess(cfg, ss, cs, key) && CallsClocked(cs, from + OAuthModel.LOGIN_WINDOW_MS)
    ensures CountFrom(WrongAt(cfg, ss, cs, key), from) <= 2 * OAuthModel.LOGIN_MAX_FAILURES - 1
  {
    var ts := WrongAt(cfg, ss, cs, key);
    SessionReflects(cfg, ss, cs, key, from + OAuthModel.LOGIN_WINDOW_MS);
    CountedAreAdmitted(CONSENT_RULE, ts, from);
    ClimbingIsOrdered(ts, from + OAuthModel.LOGIN_WINDOW_MS);
    AtMostTwice(CONSENT_RULE, None, ts, from);
  }

  // ---------------------------------------------------------------------
  // That bound is met too
  // ---------------------------------------------------------------------

  /** The failures on record when `key`'s window is `w` and no one else has failed. */
  function FailuresOf(w: Option<Window>, key: string): map<string, OAuthModel.Failures> {
    if w.Some? then map[key := OAuthModel.Failures(w.value.count, w.value.start)] else map[]
  }

  /** The server just before a wrong password is submitted at `now`: a consent page of nonce `nonce` is open, and
      `key`'s failures are `w`. */
  function Page(w: Option<Window>, key: string, nonce: string, p: OAuthModel.Params, now: int): OAuthModel.Server {
    OAuthModel.EMPTY.(
      consents := EmptyMap().Set(nonce, OAuthModel.Consent(p, now + OAuthModel.CONSENT_TTL_MS)),
      failures := FailuresOf(w, key))
  }

  function WrongCall(key: string, nonce: string, now: int): Call {
    Call(Some(nonce), None, key, "", now)
  }

  lemma WrongAnswer(cfg: OAuthModel.Config, s: OAuthModel.Server, c: Call)
    requires c.nonce.Some? && c.nonce.value != "" && c.nonce.value in s.consents.at && s.consents.at[c.nonce.value].expires > c.now
    requires c.password.None? && !OAuthModel.Throttled(s.failures, c.key, c.now)
    ensures IsWrongPassword(Answer(cfg, s, c))
    ensures OAuthModel.Complete(cfg, s, c.nonce, c.password, c.key, c.code, c.now).0.failures
         == OAuthModel.CountFailure(OAuthModel.Cooled(s.failures, c.key, c.now), c.key, c.now)
  {
  }

  lemma FailureIsHit(w: Option<Window>, key: string, now: int)
    requires !Blocked(CONSENT_RULE, w, now)
    ensures !OAuthModel.Throttled(FailuresOf(w, key), key, now)
    ensures OAuthModel.CountFailure(OAuthModel.Cooled(FailuresOf(w, key), key, now), key, now) == FailuresOf(Hit(CONSENT_RULE, w, now), key)
  {
  }

  lemma PageIsOpen(w: Option<Window>, key: string, nonce: string, p: OAuthModel.Params, now: int)
    ensures
      var s := Page(w, key, nonce, p, now);
      nonce in s.consents.at && s.consents.at[nonce].expires > now && s.failures == FailuresOf(w, key)
  {
  }

  /** While the window has room the password is answered as wrong, and counted. */
  lemma WrongIsCounted(cfg: OAuthModel.Config, w: Option<Window>, key: string, nonce: string, p: OAuthModel.Params, now: int)
    requires nonce != "" && !Blocked(CONSENT_RULE, w, now)
    ensures
      var s, c := Page(w, key, nonce, p, now), WrongCall(key, nonce, now);
      && IsWrongPassword(Answer(cfg, s, c))
      && OAuthModel.Complete(cfg, s, c.nonce, c.password, c.key, c.code, c.now).0.failures == FailuresOf(Hit(CONSENT_RULE, w, now), key)
  {
    hide Page, FailuresOf, Answer, IsWrongPassword, OAuthModel.Complete, OAuthModel.Throttled, OAuthModel.CountFailure, OAuthModel.Cooled, Hit, Blocked;
    PageIsOpen(w, key, nonce, p, now);
    FailureIsHit(w, key, now);
    WrongAnswer(cfg, Page(w, key, nonce, p, now), WrongCall(key, nonce, now));
  }

  function WrongCalls(key: string, nonce: string, ts: seq<int>): (cs: seq<Call>)
    ensures |cs| == |ts| && forall i :: 0 <= i < |ts| ==> cs[i] == WrongCall(key, nonce, ts[i])
  {
    seq(|ts|, i requires 0 <= i < |ts| => WrongCall(key, nonce, ts[i]))
  }

  function Pages(key: string, nonce: string, p: OAuthModel.Params, ts: seq<int>): (ss: seq<OAuthModel.Server>)
    ensures |ss| == |ts| + 1
    ensures forall i :: 0 <= i <= |ts| ==>
      ss[i] == Page(After(CONSENT_RULE, None, ts[..i]), key, nonce, p, if i < |ts| then ts[i] else 0)
  {
    seq(|ts| + 1, i requires 0 <= i < |ts| + 1 =>
      Page(After(CONSENT_RULE, None, ts[..i]), key, nonce, p, if i < |ts| then ts[i] else 0))
  }

  lemma {:induction false} CountedBefore(r: Rule, ts: seq<int>, i: nat)
    requires AllCounted(r, ts) && i < |ts|
    ensures !Blocked(r, After(r, None, ts[..i]), ts[i])
  {
    var n := |ts| - 1;
    if i < n {
      assert ts[..n][..i] == ts[..i];
      CountedBefore(r, ts[..n], i);
    }
  }

  lemma PageStep(cfg: OAuthModel.Config, key: string, nonce: string, p: OAuthModel.Params, ts: seq<int>, i: nat)
    requires nonce != "" && AllCounted(CONSENT_RULE, ts) && i < |ts|
    ensures
      var s, c := Pages(key, nonce, p, ts)[i], WrongCalls(key, nonce, ts)[i];
      && IsWrongPassword(Answer(cfg, s, c))
      && OAuthModel.Complete(cfg, s, c.nonce, c.password, c.key, c.code, c.now).0.failures == Pages(key, nonce, p, ts)[i + 1].failures
  {
    hide Answer, IsWrongPassword, OAuthModel.Complete, Hit, Blocked, AllCounted, FailuresOf;
    var w := After(CONSENT_RULE, None, ts[..i]);
    CountedBefore(CONSENT_RULE, ts, i);
    WrongIsCounted(cfg, w, key, nonce, p, ts[i]);
    NextWindow(CONSENT_RULE, ts, i);
  }

  lemma NextWindow(r: Rule, ts: seq<int>, i: nat)
    requires i < |ts|
    ensures After(r, None, ts[..i + 1]) == Hit(r, After(r, None, ts[..i]), ts[i])
  {
    assert ts[..i + 1][..i] == ts[..i];
  }

  lemma {:induction false} AllWrong(cfg: OAuthModel.Config, ss: seq<OAuthModel.Server>, cs: seq<Call>, key: string, ts: seq<int>)
    requires |ss| > |cs| == |ts|
    requires forall i :: 0 <= i < |cs| ==> cs[i].key == key && cs[i].now == ts[i] && IsWrongPassword(Answer(cfg, ss[i], cs[i]))
    ensures WrongAt(cfg, ss, cs, key) == ts
  {
    if cs != [] {
      var n := |cs| - 1;
      AllWrong(cfg, ss, cs[..n], key, ts[..n]);
      assert ts == ts[..n] + [ts[n]];
    }
  }

  lemma {:induction false} CallsClimb(key: string, nonce: string, ts: seq<int>, until: int)
    requires Climbing(ts, until)
    ensures CallsClocked(WrongCalls(key, nonce, ts), until)
  {
    if ts != [] {
      var n := |ts| - 1;
      CallsClimb(key, nonce, ts[..n], ts[n]);
      assert WrongCalls(key, nonce, ts)[..n] == WrongCalls(key, nonce, ts[..n]);
    }
  }

  lemma WrongSession(cfg: OAuthModel.Config, key: string, nonce: string, p: OAuthModel.Params, ts: seq<int>)
    requires nonce != "" && AllCounted(CONSENT_RULE, ts)
    ensures
      var ss, cs := Pages(key, nonce, p, ts), WrongCalls(key, nonce, ts);
      IsSession(cfg, ss, cs) && NoSuccess(cfg, ss, cs, key) && WrongAt(cfg, ss, cs, key) == ts
  {
    hide Page, Answer, OAuthModel.Complete, AllCounted, WrongAt;
    var ss, cs := Pages(key, nonce, p, ts), WrongCalls(key, nonce, ts);
    forall i | 0 <= i < |cs|
      ensures IsWrongPassword(Answer(cfg, ss[i], cs[i]))
      ensures OAuthModel.Complete(cfg, ss[i], cs[i].nonce, cs[i].password, cs[i].key, cs[i].code, cs[i].now).0.failures == ss[i + 1].failures
    {
      PageStep(cfg, key, nonce, p, ts, i);
    }
    FirstPage(key, nonce, p, ts);
    AllWrong(cfg, ss, cs, key, ts);
  }

  lemma FillingAdmitted(r: Rule)
    requires r.max >= 1 && r.length > 0 && r.late
    ensures AllCounted(r, Filling(r)) && CountFrom(Filling(r), r.length) == 2 * r.max - 1 && Climbing(Filling(r), 2 * r.length)
  {
    hide Admitted, CountFrom, AllCounted, Climbing;
    FillingIsCounted(r);
    AllAdmitted(r, Filling(r), 0);
    LateFilling(r);
    CountedAreAdmitted(r, Filling(r), r.length);
    OrderedClimbs(Filling(r), 2 * r.length);
  }

  /** One wrong password, the rest of the limit as its window ends, then the limit again in the next: all are answered
      as wrong, 2 * LOGIN_MAX_FAILURES - 1 of them within one LOGIN_WINDOW_MS. */
  lemma GuessesBoundIsReached(cfg: OAuthModel.Config, key: string, nonce: string, p: OAuthModel.Params)
    requires nonce != ""
    ensures
      var ts, from := Filling(CONSENT_RULE), OAuthModel.LOGIN_WINDOW_MS;
      var ss, cs := Pages(key, nonce, p, ts), WrongCalls(key, nonce, ts);
      && IsSession(cfg, ss, cs) && NoSuccess(cfg, ss, cs, key) && CallsClocked(cs, from + OAuthModel.LOGIN_WINDOW_MS)
      && CountFrom(WrongAt(cfg, ss, cs, key), from) == 2 * OAuthModel.LOGIN_MAX_FAILURES - 1
  {
    hide IsSession, NoSuccess, WrongAt, CallsClocked, CountFrom, Filling, AllCounted, Climbing;
    var ts := Filling(CONSENT_RULE);
    FillingAdmitted(CONSENT_RULE);
    WrongSession(cfg, key, nonce, p, ts);
    CallsClimb(key, nonce, ts, 2 * OAuthModel.LOGIN_WINDOW_MS);
  }

  lemma FirstPage(key: string, nonce: string, p: OAuthModel.Params, ts: seq<int>)
    ensures Pages(key, nonce, p, ts)[0].failures == map[]
  {
    assert ts[..0] == [];
  }
}
