/** One heartbeat and one auto-reply loop per agent per process, across module copies of the plugin.

    Each evaluation of the bundle is a copy with its own timers and a generation number; the registry on
    globalThis maps an agent to the generation that produces for it. */
module RuntimeRegistry {
  import opened OrderedMaps

  /** A module copy's variables: the agent its connection is for, whether it is retired, the agent it has
      claimed, whether its heartbeat timer runs and whether it holds an unstopped loop. */
  datatype Copy = Copy(connection: Option<string>, retired: bool, claimed: Option<string>, heartbeat: bool, loop: bool)

  datatype Host = Host(generations: nat, byAgent: map<string, nat>, copies: map<nat, Copy>)

  const FRESH_COPY := Copy(None, false, None, false, false)

  // ---------------------------------------------------------------------
  // The registry
  // ---------------------------------------------------------------------

  function Release(h: Host, agent: string, g: nat): Host {
    if agent in h.byAgent && h.byAgent[agent] == g then h.(byAgent := h.byAgent - {agent}) else h
  }

  /** Tear down copy `g`: no timers, no claim, retired. */
  function Shutdown(h: Host, g: nat): Host
    requires g in h.copies
  {
    var c := h.copies[g];
    var r := h.(copies := h.copies[g := Copy(c.connection, true, None, false, false)]);
    if c.claimed.Some? then Release(r, c.claimed.value, g) else r
  }

  /** Become the producer for `agent`; an older holder is stopped first, a newer one wins. */
  function ClaimAgent(h: Host, agent: string, g: nat): (Host, bool)
    requires agent in h.byAgent ==> h.byAgent[agent] in h.copies
  {
    if agent !in h.byAgent then (h.(byAgent := h.byAgent[agent := g]), true)
    else if h.byAgent[agent] > g then (h, false)
    else
      var r := if h.byAgent[agent] != g then Shutdown(h, h.byAgent[agent]) else h;
      (r.(byAgent := r.byAgent[agent := g]), true)
  }

  // ---------------------------------------------------------------------
  // A module copy
  // ---------------------------------------------------------------------

  ghost predicate HoldersExist(h: Host) {
    forall a :: a in h.byAgent ==> h.byAgent[a] in h.copies
  }

  /** Claim this agent for copy `g`; a stale copy retires instead. */
  function ClaimRuntime(h: Host, g: nat, agent: string): (Host, bool)
    requires g in h.copies && (agent in h.byAgent ==> h.byAgent[agent] in h.copies)
  {
    var c := h.copies[g];
    if c.retired then (h, false)
    else if c.claimed == Some(agent) then (h, true)
    else
      var (r, ok) := ClaimAgent(h, agent, g);
      var mine := if g in r.copies then r.copies[g] else c;
      if ok then (r.(copies := r.copies[g := mine.(claimed := Some(agent))]), true)
      else (r.(copies := r.copies[g := mine.(retired := true)]), false)
  }

  function StartHeartbeat(h: Host, g: nat): Host
    requires g in h.copies && HoldersExist(h)
  {
    var c := h.copies[g];
    if c.heartbeat || c.connection.None? then h
    else
      var (r, ok) := ClaimRuntime(h, g, c.connection.value);
      if ok && g in r.copies then r.(copies := r.copies[g := r.copies[g].(heartbeat := true)]) else r
  }

  /** `canLoop`: the host handed over its api and auto-reply is not disabled in this process. */
  function StartAutoReply(h: Host, g: nat, api: bool, enabled: bool): Host
    requires g in h.copies && HoldersExist(h)
  {
    var c := h.copies[g];
    if c.loop || c.connection.None? || !api then h
    else
      var (r, ok) := ClaimRuntime(h, g, c.connection.value);
      if ok && enabled && g in r.copies then r.(copies := r.copies[g := r.copies[g].(loop := true)]) else r
  }

  // ---------------------------------------------------------------------
  // The invariant
  // ---------------------------------------------------------------------

  /** Whoever has claimed an agent is the one the registry names, for its own connection's agent; whoever
      runs a timer or a loop has claimed. */
  ghost predicate CopyOk(h: Host, g: nat)
    requires g in h.copies
  {
    var c := h.copies[g];
    && g <= h.generations
    && (c.claimed.Some? ==> c.claimed == c.connection && c.claimed.value in h.byAgent && h.byAgent[c.claimed.value] == g)
    && (c.heartbeat || c.loop ==> c.claimed.Some? && !c.retired)
  }

  ghost predicate Inv(h: Host) {
    && HoldersExist(h)
    && (forall g :: g in h.copies ==> CopyOk(h, g))
    && (forall a :: a in h.byAgent ==> h.copies[h.byAgent[a]].claimed == Some(a))
  }

  /** A claim moves upwards only: where the holder of an agent changes, it is to a newer generation, and the
      copy that lost it no longer runs anything. */
  ghost predicate Upwards(h: Host, r: Host) {
    forall a :: a in h.byAgent && a in r.byAgent && r.byAgent[a] != h.byAgent[a] ==>
      && r.byAgent[a] > h.byAgent[a]
      && (h.byAgent[a] in r.copies ==> var c := r.copies[h.byAgent[a]]; c.retired && !c.heartbeat && !c.loop)
  }

  lemma ShutdownInv(h: Host, g: nat)
    requires Inv(h) && g in h.copies
    ensures Inv(Shutdown(h, g))
    ensures forall a :: a in Shutdown(h, g).byAgent <==> a in h.byAgent && h.byAgent[a] != g
    ensures forall a :: a in Shutdown(h, g).byAgent ==> Shutdown(h, g).byAgent[a] == h.byAgent[a]
  {
    var c, r := h.copies[g], Shutdown(h, g);
    forall a | a in h.byAgent && h.byAgent[a] == g ensures c.claimed == Some(a) {
    }
    forall x | x in r.copies ensures CopyOk(r, x) { assert CopyOk(h, x); }
  }

  /** Claiming for one's own connection keeps the invariant and leaves the claimer in charge, or retired. */
  lemma ClaimInv(h: Host, g: nat, agent: string)
    requires Inv(h) && g in h.copies && h.copies[g].connection == Some(agent)
    ensures
      var (r, ok) := ClaimRuntime(h, g, agent);
      && Inv(r) && Upwards(h, r) && g in r.copies && r.copies.Keys == h.copies.Keys
      && r.copies[g].connection == Some(agent) && r.copies[g].heartbeat == h.copies[g].heartbeat && r.copies[g].loop == h.copies[g].loop
      && (ok ==> r.copies[g].claimed == Some(agent) && !r.copies[g].retired)
  {
    var c := h.copies[g];
    var (r, ok) := ClaimRuntime(h, g, agent);
    assert CopyOk(h, g);
    if !c.retired && c.claimed != Some(agent) {
      if agent in h.byAgent && h.byAgent[agent] < g {
        var s := Shutdown(h, h.byAgent[agent]);
        ShutdownInv(h, h.byAgent[agent]);
        TakeInv(s, g, agent);
      } else if agent !in h.byAgent {
        TakeInv(h, g, agent);
      } else {
        forall x | x in r.copies ensures CopyOk(r, x) { assert CopyOk(h, x); }
      }
    }
  }

  /** Taking an agent nobody holds. */
  lemma TakeInv(h: Host, g: nat, agent: string)
    requires Inv(h) && g in h.copies && agent !in h.byAgent
    requires h.copies[g].connection == Some(agent) && h.copies[g].claimed.None?
    ensures Inv(h.(byAgent := h.byAgent[agent := g], copies := h.copies[g := h.copies[g].(claimed := Some(agent))]))
  {
    var r := h.(byAgent := h.byAgent[agent := g], copies := h.copies[g := h.copies[g].(claimed := Some(agent))]);
    forall x | x in r.copies ensures CopyOk(r, x) { assert CopyOk(h, x); }
  }

  lemma HeartbeatInv(h: Host, g: nat)
    requires Inv(h) && g in h.copies
    ensures Inv(StartHeartbeat(h, g)) && Upwards(h, StartHeartbeat(h, g)) && StartHeartbeat(h, g).copies.Keys == h.copies.Keys
  {
    hide ClaimRuntime;
    var c := h.copies[g];
    if !c.heartbeat && c.connection.Some? {
      ClaimInv(h, g, c.connection.value);
      var (m, ok) := ClaimRuntime(h, g, c.connection.value);
      var r := StartHeartbeat(h, g);
      forall x | x in r.copies ensures CopyOk(r, x) { assert CopyOk(m, x); }
    }
  }

  lemma AutoReplyInv(h: Host, g: nat, api: bool, enabled: bool)
    requires Inv(h) && g in h.copies
    ensures Inv(StartAutoReply(h, g, api, enabled)) && Upwards(h, StartAutoReply(h, g, api, enabled))
  {
    hide ClaimRuntime;
    var c := h.copies[g];
    if !c.loop && c.connection.Some? && api {
      ClaimInv(h, g, c.connection.value);
      var (m, ok) := ClaimRuntime(h, g, c.connection.value);
      var r := StartAutoReply(h, g, api, enabled);
      forall x | x in r.copies ensures CopyOk(r, x) { assert CopyOk(m, x); }
    }
  }

  // ---------------------------------------------------------------------
  // Runs
  // ---------------------------------------------------------------------

  /** The await-free pieces in which a copy touches its timers. */
  datatype Action =
    | Load
    | Connected(copy: nat, agent: string, api: bool, enabled: bool)
    | Ensure(copy: nat, api: bool, enabled: bool)
    | RebindStarts(copy: nat)
    | RebindDrained(copy: nat, enabled: bool)
    | Stopped(copy: nat)
    | Activated(copy: nat)

  ghost predicate Enabled(h: Host, a: Action) {
    match a
    case Load => true
    case Connected(g, _, _, _) => g in h.copies && h.copies[g].connection.None?
    case Ensure(g, _, _) => g in h.copies && h.copies[g].connection.Some?
    case RebindStarts(g) => g in h.copies
    case RebindDrained(g, _) => g in h.copies
    case Stopped(g) => g in h.copies
    case Activated(g) => g in h.copies
  }

  ghost function StartBoth(h: Host, g: nat, api: bool, enabled: bool): Host
    requires Inv(h) && g in h.copies
  {
    HeartbeatInv(h, g);
    StartAutoReply(StartHeartbeat(h, g), g, api, enabled)
  }

  ghost function Next(h: Host, a: Action): Host
    requires Inv(h) && Enabled(h, a)
  {
    match a
    case Load => Host(h.generations + 1, h.byAgent, h.copies[h.generations + 1 := FRESH_COPY])
    case Connected(g, agent, api, enabled) =>
      var r := h.(copies := h.copies[g := h.copies[g].(connection := Some(agent))]);
      ConnectInv(h, g, agent);
      StartBoth(r, g, api, enabled)
    case Ensure(g, api, enabled) => StartBoth(h, g, api, enabled)
    case RebindStarts(g) => h.(copies := h.copies[g := h.copies[g].(loop := false)])
    case RebindDrained(g, enabled) => StartAutoReply(h, g, true, enabled)
    case Stopped(g) => Shutdown(h, g)
    case Activated(g) => h.(copies := h.copies[g := h.copies[g].(retired := false)])
  }

  lemma ConnectInv(h: Host, g: nat, agent: string)
    requires Inv(h) && g in h.copies && h.copies[g].connection.None?
    ensures Inv(h.(copies := h.copies[g := h.copies[g].(connection := Some(agent))]))
  {
    var r := h.(copies := h.copies[g := h.copies[g].(connection := Some(agent))]);
    assert CopyOk(h, g);
    forall x | x in r.copies ensures CopyOk(r, x) { assert CopyOk(h, x); }
  }

  lemma OneCopyInv(h: Host, g: nat, c: Copy)
    requires Inv(h) && g in h.copies
    requires c.claimed == h.copies[g].claimed && c.connection == h.copies[g].connection
    requires c.heartbeat || c.loop ==> c.claimed.Some? && !c.retired
    ensures Inv(h.(copies := h.copies[g := c])) && Upwards(h, h.(copies := h.copies[g := c]))
  {
    var r := h.(copies := h.copies[g := c]);
    forall x | x in r.copies ensures CopyOk(r, x) { assert CopyOk(h, x); }
  }

  lemma StartBothInv(h: Host, g: nat, api: bool, enabled: bool)
    requires Inv(h) && g in h.copies
    ensures Inv(StartBoth(h, g, api, enabled))
  {
    HeartbeatInv(h, g);
    AutoReplyInv(StartHeartbeat(h, g), g, api, enabled);
  }

  lemma LoadInv(h: Host)
    requires Inv(h)
    ensures Inv(Next(h, Load))
  {
    var r, n := Next(h, Load), h.generations + 1;
    forall x | x in h.copies ensures x <= h.generations { assert CopyOk(h, x); }
    forall x | x in r.copies ensures CopyOk(r, x) { if x != n { assert CopyOk(h, x); } }
  }

  lemma NextInv(h: Host, a: Action)
    requires Inv(h) && Enabled(h, a)
    ensures Inv(Next(h, a))
  {
    match a
    case Load => LoadInv(h);
    case Connected(g, agent, api, enabled) =>
      ConnectInv(h, g, agent);
      StartBothInv(h.(copies := h.copies[g := h.copies[g].(connection := Some(agent))]), g, api, enabled);
    case Ensure(g, api, enabled) => StartBothInv(h, g, api, enabled);
    case RebindStarts(g) => assert CopyOk(h, g); OneCopyInv(h, g, h.copies[g].(loop := false));
    case RebindDrained(g, enabled) => AutoReplyInv(h, g, true, enabled);
    case Stopped(g) => ShutdownInv(h, g);
    case Activated(g) => assert CopyOk(h, g); OneCopyInv(h, g, h.copies[g].(retired := false));
  }

  /** Steps are defined on states that satisfy the invariant, which every state of a run does (RunInv). */
  ghost predicate Step(h: Host, a: Action, r: Host) {
    Inv(h) ==> Enabled(h, a) && r == Next(h, a)
  }

  ghost predicate IsRun(hs: seq<Host>, acts: seq<Action>) {
    && |hs| == |acts| + 1 && hs[0] == Host(0, map[], map[])
    && forall i :: 0 <= i < |acts| ==> Step(hs[i], acts[i], hs[i + 1])
  }

  lemma {:induction false} RunInv(hs: seq<Host>, acts: seq<Action>, i: nat)
    requires IsRun(hs, acts) && i <= |acts|
    ensures Inv(hs[i])
  {
    if i > 0 {
      RunInv(hs, acts, i - 1);
      assert Step(hs[i - 1], acts[i - 1], hs[i - 1 + 1]);
      NextInv(hs[i - 1], acts[i - 1]);
    }
  }

  /** However copies are loaded, connected, rebound, stopped and reactivated: for each agent at most one copy
      heartbeats and at most one unstopped loop exists, and both are in the copy the registry names. */
  lemma OneProducerPerAgent(hs: seq<Host>, acts: seq<Action>, i: nat, g: nat, other: nat)
    requires IsRun(hs, acts) && i <= |acts| && g in hs[i].copies && other in hs[i].copies
    requires hs[i].copies[g].connection == hs[i].copies[other].connection
    requires hs[i].copies[g].heartbeat || hs[i].copies[g].loop
    requires hs[i].copies[other].heartbeat || hs[i].copies[other].loop
    ensures g == other
  {
    RunInv(hs, acts, i);
    assert CopyOk(hs[i], g) && CopyOk(hs[i], other);
  }

  /** The copy may claim nothing more: it is retired, or has claimed what it is connected as. */
  predicate Settled(c: Copy) {
    c.retired || c.connection.None? || c.claimed == c.connection
  }

  lemma HeartbeatSettles(h: Host, g: nat)
    requires Inv(h) && g in h.copies
    ensures g in StartHeartbeat(h, g).copies && Settled(StartHeartbeat(h, g).copies[g])
  {
    assert CopyOk(h, g);
    var c := h.copies[g];
    if !c.heartbeat && c.connection.Some? {
      ClaimInv(h, g, c.connection.value);
      if !c.retired && c.claimed != c.connection { RefusedIsRetired(h, g, c.connection.value); }
    }
  }

  lemma RefusedIsRetired(h: Host, g: nat, agent: string)
    requires Inv(h) && g in h.copies && h.copies[g].connection == Some(agent)
    ensures var (r, ok) := ClaimRuntime(h, g, agent); !ok ==> g in r.copies && r.copies[g].retired
  {
  }

  lemma SettledClaimsNothing(h: Host, g: nat, api: bool, enabled: bool)
    requires Inv(h) && g in h.copies && Settled(h.copies[g])
    ensures
      var r := StartAutoReply(h, g, api, enabled);
      r.byAgent == h.byAgent && r.copies.Keys == h.copies.Keys && forall x :: x in h.copies && x != g ==> r.copies[x] == h.copies[x]
  {
  }

  lemma StartBothUpwards(h: Host, g: nat, api: bool, enabled: bool)
    requires Inv(h) && g in h.copies
    ensures Upwards(h, StartBoth(h, g, api, enabled))
  {
    HeartbeatInv(h, g);
    HeartbeatSettles(h, g);
    var m := StartHeartbeat(h, g);
    SettledClaimsNothing(m, g, api, enabled);
    HeartbeatTakesForItself(h, g);
  }

  /** Whatever changes hands goes to the copy that is starting. */
  lemma HeartbeatTakesForItself(h: Host, g: nat)
    requires Inv(h) && g in h.copies
    ensures
      var r := StartHeartbeat(h, g);
      forall a :: a in h.byAgent && a in r.byAgent && r.byAgent[a] != h.byAgent[a] ==> r.byAgent[a] == g && h.byAgent[a] != g
  {
    var c := h.copies[g];
    if !c.heartbeat && c.connection.Some? && c.connection.value in h.byAgent && h.byAgent[c.connection.value] < g {
      ShutdownInv(h, h.byAgent[c.connection.value]);
    }
  }

  lemma NextUpwards(h: Host, a: Action)
    requires Inv(h) && Enabled(h, a)
    ensures Upwards(h, Next(h, a))
  {
    match a
    case Connected(g, agent, api, enabled) =>
      ConnectInv(h, g, agent);
      var r := h.(copies := h.copies[g := h.copies[g].(connection := Some(agent))]);
      StartBothUpwards(r, g, api, enabled);
    case Ensure(g, api, enabled) => StartBothUpwards(h, g, api, enabled);
    case RebindDrained(g, enabled) => AutoReplyInv(h, g, true, enabled);
    case Stopped(g) => ShutdownInv(h, g);
    case _ =>
  }

  /** In every run, where an agent passes from one copy straight to another, it passes to a newer generation, and
      the older copy is retired with nothing running: an older generation never displaces a newer holder. */
  lemma HoldersOnlyRise(hs: seq<Host>, acts: seq<Action>, i: nat, agent: string)
    requires IsRun(hs, acts) && i < |acts| && agent in hs[i].byAgent && agent in hs[i + 1].byAgent
    requires hs[i + 1].byAgent[agent] != hs[i].byAgent[agent]
    ensures hs[i + 1].byAgent[agent] > hs[i].byAgent[agent]
    ensures
      && hs[i].byAgent[agent] in hs[i + 1].copies
      && var was := hs[i + 1].copies[hs[i].byAgent[agent]]; was.retired && !was.heartbeat && !was.loop
  {
    RunInv(hs, acts, i);
    assert Step(hs[i], acts[i], hs[i + 1]);
    NextUpwards(hs[i], acts[i]);
    NextKeepsCopies(hs[i], acts[i]);
  }

  lemma NextKeepsCopies(h: Host, a: Action)
    requires Inv(h) && Enabled(h, a)
    ensures h.copies.Keys <= Next(h, a).copies.Keys
  {
    match a
    case Connected(g, agent, api, enabled) =>
      ConnectInv(h, g, agent);
      StartBothKeepsCopies(h.(copies := h.copies[g := h.copies[g].(connection := Some(agent))]), g, api, enabled);
    case Ensure(g, api, enabled) => StartBothKeepsCopies(h, g, api, enabled);
    case RebindDrained(g, enabled) => AutoReplyKeepsCopies(h, g, true, enabled);
    case _ =>
  }

  lemma StartBothKeepsCopies(h: Host, g: nat, api: bool, enabled: bool)
    requires Inv(h) && g in h.copies
    ensures StartBoth(h, g, api, enabled).copies.Keys == h.copies.Keys
  {
    HeartbeatInv(h, g);
    AutoReplyKeepsCopies(StartHeartbeat(h, g), g, api, enabled);
  }

  lemma AutoReplyKeepsCopies(h: Host, g: nat, api: bool, enabled: bool)
    requires Inv(h) && g in h.copies
    ensures StartAutoReply(h, g, api, enabled).copies.Keys == h.copies.Keys
  {
    var c := h.copies[g];
    if !c.loop && c.connection.Some? && api { ClaimInv(h, g, c.connection.value); }
  }

  /** A newer copy's claim always succeeds, and stops the older holder on the spot. */
  lemma NewerAlwaysTakesOver(h: Host, g: nat, agent: string)
    requires Inv(h) && g in h.copies && h.copies[g].connection == Some(agent) && !h.copies[g].retired
    requires agent in h.byAgent && h.byAgent[agent] < g
    ensures
      var (r, ok) := ClaimRuntime(h, g, agent);
      && ok && r.byAgent[agent] == g
      && h.byAgent[agent] in r.copies
      && var was := r.copies[h.byAgent[agent]]; was.retired && !was.heartbeat && !was.loop && was.claimed.None?
  {
    assert CopyOk(h, g);
    assert CopyOk(h, h.byAgent[agent]);
  }

  // ---------------------------------------------------------------------
  // Who produces
  // ---------------------------------------------------------------------

  /** Connected, not retired, and no newer copy holds its agent. */
  ghost predicate Entitled(h: Host, g: nat)
    requires g in h.copies
  {
    var c := h.copies[g];
    c.connection.Some? && !c.retired && (c.connection.value in h.byAgent ==> h.byAgent[c.connection.value] <= g)
  }

  lemma ClaimIffEntitled(h: Host, g: nat)
    requires Inv(h) && g in h.copies && h.copies[g].connection.Some?
    ensures
      var (r, ok) := ClaimRuntime(h, g, h.copies[g].connection.value);
      && (ok <==> Entitled(h, g)) && g in r.copies
      && (ok ==> r.copies[g] == h.copies[g].(claimed := h.copies[g].connection) && r.copies[g].connection.value in r.byAgent
                 && r.byAgent[r.copies[g].connection.value] == g)
      && (!ok ==> r.copies[g] == h.copies[g].(retired := true))
  {
    assert CopyOk(h, g);
    var agent := h.copies[g].connection.value;
    if agent in h.byAgent { assert CopyOk(h, h.byAgent[agent]); }
  }

  /** A copy asked to start its heartbeat runs it afterwards exactly if it already did or is entitled to. */
  lemma HeartbeatRunsIff(h: Host, g: nat)
    requires Inv(h) && g in h.copies
    ensures
      var r := StartHeartbeat(h, g);
      && g in r.copies && (r.copies[g].heartbeat <==> h.copies[g].heartbeat || Entitled(h, g))
      && r.copies[g].loop == h.copies[g].loop && r.copies[g].connection == h.copies[g].connection
      && (Entitled(h, g) ==> Entitled(r, g)) && (!Entitled(h, g) && h.copies[g].connection.Some? ==> !Entitled(r, g))
  {
    hide ClaimRuntime;
    assert CopyOk(h, g);
    if h.copies[g].connection.Some? {
      ClaimIffEntitled(h, g);
      ClaimInv(h, g, h.copies[g].connection.value);
    }
  }

  /** A copy asked to start its loop holds one afterwards exactly if it already did, or the host handed over its api,
      auto-reply is not disabled and the copy is entitled to. */
  lemma LoopRunsIff(h: Host, g: nat, api: bool, enabled: bool)
    requires Inv(h) && g in h.copies
    ensures
      var r := StartAutoReply(h, g, api, enabled);
      && g in r.copies && (r.copies[g].loop <==> h.copies[g].loop || (api && enabled && Entitled(h, g)))
      && r.copies[g].heartbeat == h.copies[g].heartbeat
  {
    hide ClaimRuntime;
    if h.copies[g].connection.Some? { ClaimIffEntitled(h, g); }
  }

  /** In every run, a copy that connects produces exactly if it is not retired and no newer copy holds the agent: then its
      heartbeat runs, and its loop if it has the host's api and auto-reply is not disabled. */
  lemma ConnectedProduces(hs: seq<Host>, acts: seq<Action>, i: nat)
    requires IsRun(hs, acts) && i < |acts| && acts[i].Connected? && acts[i].copy in hs[i].copies
    ensures acts[i].copy in hs[i + 1].copies
    ensures
      var a, was, now := acts[i], hs[i].copies[acts[i].copy], hs[i + 1].copies[acts[i].copy];
      var entitled := !was.retired && (a.agent in hs[i].byAgent ==> hs[i].byAgent[a.agent] <= a.copy);
      (now.heartbeat <==> entitled) && (now.loop <==> entitled && a.api && a.enabled)
  {
    var a, h := acts[i], hs[i];
    var g := a.copy;
    RunInv(hs, acts, i);
    assert Step(h, a, hs[i + 1]);
    assert CopyOk(h, g);
    ConnectInv(h, g, a.agent);
    var r := h.(copies := h.copies[g := h.copies[g].(connection := Some(a.agent))]);
    StartsBoth(r, g, a.api, a.enabled);
  }

  lemma StartsBoth(h: Host, g: nat, api: bool, enabled: bool)
    requires Inv(h) && g in h.copies && h.copies[g].connection.Some?
    ensures
      var r := StartBoth(h, g, api, enabled);
      && g in r.copies && (r.copies[g].heartbeat <==> h.copies[g].heartbeat || Entitled(h, g))
      && (r.copies[g].loop <==> h.copies[g].loop || (api && enabled && Entitled(h, g)))
  {
    hide StartHeartbeat, StartAutoReply, Entitled;
    HeartbeatInv(h, g);
    HeartbeatRunsIff(h, g);
    LoopRunsIff(StartHeartbeat(h, g), g, api, enabled);
  }

  /** In every run, a connected copy asked again to produce does so exactly if it already did or is entitled to. */
  lemma EnsuredProduces(hs: seq<Host>, acts: seq<Action>, i: nat)
    requires IsRun(hs, acts) && i < |acts| && acts[i].Ensure? && acts[i].copy in hs[i].copies
    ensures acts[i].copy in hs[i + 1].copies
    ensures
      var a, was, now := acts[i], hs[i].copies[acts[i].copy], hs[i + 1].copies[acts[i].copy];
      && (now.heartbeat <==> was.heartbeat || Entitled(hs[i], a.copy))
      && (now.loop <==> was.loop || (a.api && a.enabled && Entitled(hs[i], a.copy)))
  {
    RunInv(hs, acts, i);
    assert Step(hs[i], acts[i], hs[i + 1]);
    StartsBoth(hs[i], acts[i].copy, acts[i].api, acts[i].enabled);
  }

  /** A release drops the agent's entry if this copy holds it, and nothing else. */
  lemma ReleaseIffHeld(h: Host, agent: string, g: nat, other: string)
    ensures
      var r := Release(h, agent, g);
      && (other in r.byAgent <==> other in h.byAgent && !(other == agent && h.byAgent[agent] == g))
      && (other in r.byAgent ==> r.byAgent[other] == h.byAgent[other]) && r.copies == h.copies
  {
  }

  /** In every run, a stopped copy is retired, runs nothing and holds no agent; no other copy and no other agent's holder
      changes. */
  lemma StoppedRunsNothing(hs: seq<Host>, acts: seq<Action>, i: nat)
    requires IsRun(hs, acts) && i < |acts| && acts[i].Stopped? && acts[i].copy in hs[i].copies
    ensures
      var g, h, r := acts[i].copy, hs[i], hs[i + 1];
      && r.copies.Keys == h.copies.Keys && r.copies[g] == Copy(h.copies[g].connection, true, None, false, false)
      && (forall a :: a in r.byAgent <==> a in h.byAgent && h.byAgent[a] != g)
      && (forall a :: a in r.byAgent ==> r.byAgent[a] == h.byAgent[a])
      && (forall x :: x in h.copies && x != g ==> r.copies[x] == h.copies[x])
  {
    RunInv(hs, acts, i);
    assert Step(hs[i], acts[i], hs[i + 1]);
    ShutdownInv(hs[i], acts[i].copy);
  }

  /** In every run, a rebind stops the loop, and once the old loop has drained the copy holds one again exactly if it is
      entitled to and auto-reply is not disabled; the heartbeat goes on as it was. */
  lemma RebindRestarts(hs: seq<Host>, acts: seq<Action>, i: nat)
    requires IsRun(hs, acts) && i < |acts| && (acts[i].RebindStarts? || acts[i].RebindDrained?) && acts[i].copy in hs[i].copies
    ensures acts[i].copy in hs[i + 1].copies
    ensures
      var was, now := hs[i].copies[acts[i].copy], hs[i + 1].copies[acts[i].copy];
      && now.heartbeat == was.heartbeat
      && (acts[i].RebindStarts? ==> !now.loop && hs[i + 1].byAgent == hs[i].byAgent)
      && (acts[i].RebindDrained? ==> (now.loop <==> was.loop || (acts[i].enabled && Entitled(hs[i], acts[i].copy))))
  {
    RunInv(hs, acts, i);
    assert Step(hs[i], acts[i], hs[i + 1]);
    if acts[i].RebindDrained? { LoopRunsIff(hs[i], acts[i].copy, true, acts[i].enabled); }
  }

  /** In every run, a reactivated copy is no longer retired, so it is entitled to produce unless a newer copy holds its agent;
      nothing starts by itself. */
  lemma ReactivatedIsEntitled(hs: seq<Host>, acts: seq<Action>, i: nat)
    requires IsRun(hs, acts) && i < |acts| && acts[i].Activated? && acts[i].copy in hs[i].copies
    ensures acts[i].copy in hs[i + 1].copies && hs[i + 1].byAgent == hs[i].byAgent
    ensures
      var g, was, now := acts[i].copy, hs[i].copies[acts[i].copy], hs[i + 1].copies[acts[i].copy];
      && now == was.(retired := false)
      && (Entitled(hs[i + 1], g)
          <==> (was.connection.Some? && (was.connection.value in hs[i].byAgent ==> hs[i].byAgent[was.connection.value] <= g)))
  {
    RunInv(hs, acts, i);
    assert Step(hs[i], acts[i], hs[i + 1]);
  }
}
