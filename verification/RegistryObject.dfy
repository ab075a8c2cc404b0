/** The process-global registry and a module copy's variables as objects, updated in place by claim, release and
    shutdown. Each method moves the value of the whole process as RuntimeRegistry says. */
module RegistryObject {
  import opened OrderedMaps
  import opened RuntimeRegistry

  class Registry {
    var generations: nat
    var byAgent: map<string, ModuleCopy>
    /** Every copy of the module loaded so far, by generation. */
    ghost var copies: map<nat, ModuleCopy>

    ghost predicate Valid()
      reads this
    {
      && (forall g :: g in copies ==> copies[g].registry == this && copies[g].generation == g && g <= generations)
      && (forall a :: a in byAgent ==> byAgent[a].generation in copies && copies[byAgent[a].generation] == byAgent[a])
    }

    ghost function Holders(): map<string, nat>
      reads this`byAgent
    {
      map a | a in byAgent :: byAgent[a].generation
    }

    ghost function Copies(): map<nat, Copy>
      reads this`copies, copies.Values
    {
      map g | g in copies :: copies[g].Value()
    }

    /** The state of the process. */
    ghost function Value(): Host
      reads this, copies.Values
    {
      Host(generations, Holders(), Copies())
    }

    constructor ()
      ensures Valid() && Value() == Host(0, map[], map[])
    {
      generations, byAgent, copies := 0, map[], map[];
    }

    method NextRuntimeGeneration() returns (g: nat)
      modifies this`generations
      ensures g == generations == old(generations) + 1
    {
      generations := generations + 1;
      g := generations;
    }

    /** Another evaluation of the bundle. */
    method Load() returns (c: ModuleCopy)
      requires Valid()
      modifies this
      ensures Valid() && fresh(c) && c.registry == this
      ensures Value() == Host(old(generations) + 1, old(Holders()), old(Copies())[old(generations) + 1 := FRESH_COPY])
    {
      ghost var was := Copies();
      var g := NextRuntimeGeneration();
      c := new ModuleCopy(this, g);
      copies := copies[g := c];
      assert Copies() == was[g := FRESH_COPY];
    }

    /** Drop `agent`'s entry if, and only if, this generation still holds it. */
    method ReleaseAgentRuntime(agent: string, generation: nat)
      requires Valid()
      modifies this`byAgent
      ensures Valid() && Value() == Release(old(Value()), agent, generation)
    {
      if agent in byAgent && byAgent[agent].generation == generation {
        byAgent := byAgent - {agent};
        assert Holders() == old(Holders()) - {agent};
      }
    }

    /** Enter `holder` for `agent`. */
    method Enter(agent: string, holder: ModuleCopy)
      requires Valid() && holder.generation in copies && copies[holder.generation] == holder
      modifies this`byAgent
      ensures Valid() && Value() == old(Value()).(byAgent := old(Value()).byAgent[agent := holder.generation])
    {
      byAgent := byAgent[agent := holder];
      assert Holders() == old(Holders())[agent := holder.generation];
    }

    lemma HeldAs(agent: string)
      requires Valid()
      ensures agent in Value().byAgent <==> agent in byAgent
      ensures agent in byAgent ==> Value().byAgent[agent] == byAgent[agent].generation && byAgent[agent].generation in Value().copies
    {
    }

    /** Become the one producer for `agent`: a newer holder stands, an older one is stopped first. */
    method ClaimAgentRuntime(agent: string, holder: ModuleCopy) returns (ok: bool)
      requires Valid() && holder.generation in copies && copies[holder.generation] == holder
      modifies this`byAgent, if agent in byAgent && byAgent[agent].generation < holder.generation then {byAgent[agent]} else {}
      ensures Valid() && (Value(), ok) == ClaimAgent(old(Value()), agent, holder.generation)
    {
      hide RuntimeRegistry.Shutdown;
      HeldAs(agent);
      if agent in byAgent && byAgent[agent].generation > holder.generation { return false; }
      if agent in byAgent && byAgent[agent].generation != holder.generation {
        byAgent[agent].Shutdown();
      }
      Enter(agent, holder);
      ok := true;
    }
  }

  class ModuleCopy {
    const registry: Registry
    const generation: nat
    var connection: Option<string>
    var retired: bool
    var claimedAgentId: Option<string>
    var heartbeat: bool
    var loop: bool

    constructor (registry: Registry, generation: nat)
      ensures this.registry == registry && this.generation == generation && Value() == FRESH_COPY
    {
      this.registry, this.generation := registry, generation;
      connection, retired, claimedAgentId, heartbeat, loop := None, false, None, false, false;
    }

    ghost function Value(): Copy
      reads this
    {
      Copy(connection, retired, claimedAgentId, heartbeat, loop)
    }

    ghost predicate Loaded()
      reads registry
    {
      registry.Valid() && generation in registry.copies && registry.copies[generation] == this
    }

    /** With one copy changed, so is its place in the process's state, and no other. */
    twostate lemma OneCopyChanged()
      requires old(Loaded()) && Loaded() && registry.copies == old(registry.copies)
      requires forall g :: g in registry.copies && g != generation ==> registry.copies[g].Value() == old(registry.copies[g].Value())
      ensures registry.Copies() == old(registry.Copies())[generation := Value()]
    {
    }

    /** Tear down the timers, retire, and give up the claim if it is still this copy's. */
    method Shutdown()
      requires Loaded()
      modifies this, registry`byAgent
      ensures Loaded() && registry.Value() == RuntimeRegistry.Shutdown(old(registry.Value()), generation)
    {
      retired, heartbeat, loop := true, false, false;
      if claimedAgentId.Some? {
        registry.ReleaseAgentRuntime(claimedAgentId.value, generation);
        claimedAgentId := None;
      }
      OneCopyChanged();
    }

    /** Whether this copy may produce for `agent`; a stale copy retires instead. */
    method ClaimRuntime(agent: string) returns (ok: bool)
      requires Loaded()
      modifies this`retired, this`claimedAgentId, registry`byAgent,
               if agent in registry.byAgent && registry.byAgent[agent].generation < generation then {registry.byAgent[agent]} else {}
      ensures Loaded() && (registry.Value(), ok) == RuntimeRegistry.ClaimRuntime(old(registry.Value()), generation, agent)
      ensures connection == old(connection) && heartbeat == old(heartbeat) && loop == old(loop)
    {
      hide ClaimAgent, RuntimeRegistry.Shutdown;
      if retired { return false; }
      if claimedAgentId == Some(agent) { return true; }
      ok := registry.ClaimAgentRuntime(agent, this);
      label claimed:
      if ok { claimedAgentId := Some(agent); } else { retired := true; }
      OneCopyChanged@claimed();
    }

    /** Start the heartbeat, once connected, if the claim allows it. */
    method MaybeStartHeartbeat()
      requires Loaded()
      modifies this, registry`byAgent,
               if connection.Some? && connection.value in registry.byAgent && registry.byAgent[connection.value].generation < generation
               then {registry.byAgent[connection.value]} else {}
      ensures Loaded() && registry.Value() == StartHeartbeat(old(registry.Value()), generation)
    {
      if heartbeat || connection.None? { return; }
      var ok := ClaimRuntime(connection.value);
      if !ok { return; }
      label claimed:
      heartbeat := true;
      OneCopyChanged@claimed();
    }

    /** Start the auto-reply loop, once connected and given the host's api, if the claim allows it. */
    method MaybeStartAutoReply(api: bool, enabled: bool)
      requires Loaded()
      modifies this, registry`byAgent,
               if connection.Some? && connection.value in registry.byAgent && registry.byAgent[connection.value].generation < generation
               then {registry.byAgent[connection.value]} else {}
      ensures Loaded() && registry.Value() == StartAutoReply(old(registry.Value()), generation, api, enabled)
    {
      if loop || connection.None? || !api { return; }
      var ok := ClaimRuntime(connection.value);
      if !ok || !enabled { return; }
      label claimed:
      loop := true;
      OneCopyChanged@claimed();
    }
  }
}
