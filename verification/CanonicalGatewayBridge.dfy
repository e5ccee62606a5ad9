/** The bridge as the object it is: it captures one lease per approved system from
    the registry object and rechecks it through the same object. */
module CanonicalBridge {
  import opened Wrappers
  import opened OwnerRegistry
  import opened GatewayBridge
  import RegistryObject

  class CanonicalGatewayBridge {
    const registry: RegistryObject.SystemRegistry
    var connections: map<SystemId, Grant>

    constructor (registry: RegistryObject.SystemRegistry)
      ensures this.registry == registry && connections == map[]
    {
      this.registry := registry;
      connections := map[];
    }

    /** Capture a lease for each approved system, or fail on the first that is
        repeated or cannot be resolved. */
    method Connect(approvals: seq<Approval>) returns (connected: bool)
      requires connections == map[]
      modifies this, registry`byId
      ensures var captured := Capture(old(registry.Abs()), map[], approvals);
              && registry.Abs() == captured.registry && connected == captured.grants.Some?
              && (connected ==> connections == captured.grants.value)
    {
      for i := 0 to |approvals|
        invariant Capture(old(registry.Abs()), map[], approvals)
                  == Capture(registry.Abs(), connections, approvals[i..])
      {
        var entry := approvals[i];
        assert approvals[i..][1..] == approvals[i + 1..];
        if entry.system in connections {
          return false;
        }
        var root := registry.ResolveRoot(entry.system, entry.first);
        if root.Failure? {
          return false;
        }
        var generation := registry.BindingGeneration(entry.system, entry.second);
        if generation.Failure? {
          return false;
        }
        connections := connections[entry.system := Grant(root.value, generation.value, entry.allowCancel,
                                                         entry.allowCheckpoint, entry.asksOwner)];
      }
      connected := true;
    }

    /** The lease check before a request is begun, an effect dispatched or a reply
        sent. */
    method ValidateLease(system: SystemId, workspace: string, look: Look) returns (passes: bool)
      requires system in connections
      modifies registry`byId
      ensures var guarded := Guard(old(registry.Abs()), system, connections[system], workspace, look);
              passes == guarded.passes && registry.Abs() == After(old(registry.Abs()), guarded.looks)
    {
      var grant := connections[system];
      ghost var start := registry.Abs();
      RunOfLooks(start, system, look);
      var holds := registry.HoldsLease(system, grant.root, grant.generation, look.first, look.second);
      if !holds || workspace == OPERATOR {
        return holds;
      }
      var again := registry.ResolveRoot(system, look.third);
      passes := again.Success? && look.workspaceThere;
    }
  }

  lemma RunOfLooks(r: Registry, system: SystemId, look: Look)
    ensures var a, b, c := DoResolve(system, look.first), DoResolve(system, look.second), DoResolve(system, look.third);
            var r1 := ResolveRoot(r, system, look.first).reg;
            var r2 := ResolveRoot(r1, system, look.second).reg;
            && After(r, [a]) == r1 && After(r, [a, b]) == r2
            && After(r, [a, b, c]) == ResolveRoot(r2, system, look.third).reg
  {
    var a, b, c := DoResolve(system, look.first), DoResolve(system, look.second), DoResolve(system, look.third);
    assert [a][1..] == [] && [b][1..] == [] && [c][1..] == [];
    assert [a, b][1..] == [b] && [b, c][1..] == [c] && [a, b, c][1..] == [b, c];
    var r1 := ResolveRoot(r, system, look.first).reg;
    var r2 := ResolveRoot(r1, system, look.second).reg;
    assert After(r2, [c]) == ResolveRoot(r2, system, look.third).reg;
    assert After(r1, [b, c]) == After(r2, [c]);
  }
}
