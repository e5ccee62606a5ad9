/** The registry as the object it is: maps updated in place, each method proved
    against the functions of OwnerRegistry. */
module RegistryObject {
  import opened Wrappers
  import opened ScopeKeys
  import opened OwnerRegistry
  import Model = OwnerRegistry

  class SystemRegistry {
    var byId: map<SystemId, Record>
    var byRoot: map<Path, SystemId>
    var counter: nat
    var bindingGenerations: map<SystemId, nat>
    var bindingSerial: nat

    ghost function Abs(): Registry
      reads this
    {
      Registry(byId, byRoot, counter, bindingGenerations, bindingSerial)
    }

    constructor ()
      ensures Abs() == EmptyRegistry
    {
      byId, byRoot, counter, bindingGenerations, bindingSerial := map[], map[], 0, map[], 0;
    }

    method BumpBindingGeneration(systemId: SystemId) returns (result: Result<SystemId, Error>)
      modifies this`bindingGenerations, this`bindingSerial
      ensures Out(Abs(), result) == Model.Bump(old(Abs()), systemId)
    {
      var next := bindingSerial + 1;
      if next > MAX_SAFE_INTEGER {
        return Failure(GenerationExhausted);
      }
      bindingSerial := next;
      bindingGenerations := bindingGenerations[systemId := next];
      result := Success(systemId);
    }

    method AssertNoOverlap(root: Path, own: Option<SystemId>) returns (issue: Option<Error>)
      ensures issue == OverlapIssue(Abs(), root, own)
    {
      hide IsWithin;
      if root in byRoot && Some(byRoot[root]) != own {
        return Some(SystemDuplicate);
      }
      var left := byRoot.Keys;
      while left != {}
        invariant left <= byRoot.Keys
        invariant forall other :: other in byRoot.Keys - left ==> !Overlaps(Abs(), root, own, other)
        decreases |left|
      {
        var other :| other in left;
        if Some(byRoot[other]) != own && (IsWithin(root, other) || IsWithin(other, root)) {
          assert Overlaps(Abs(), root, own, other);
          return Some(SystemOverlap);
        }
        left := left - {other};
      }
      issue := None;
    }

    method Register(probe: Probe, wanted: Option<SystemId>) returns (result: Result<SystemId, Error>)
      modifies this
      ensures Out(Abs(), result) == Model.Register(old(Abs()), probe, wanted)
    {
      hide IsWithin, OverlapIssue, IsSystemId, AutoId;
      var approved := Approve(probe);
      if approved.Failure? {
        return Failure(approved.error);
      }
      var root := approved.value.root;
      var issue := AssertNoOverlap(root, None);
      if issue.Some? {
        return Failure(issue.value);
      }
      var systemId := wanted.GetOr("");
      if wanted.None? {
        counter := counter + 1;
        systemId := AutoId(counter);
      } else if !IsSystemId(systemId) {
        return Failure(InvalidId);
      }
      if systemId in byId {
        return Failure(SystemDuplicate);
      }
      byId := byId[systemId := Record(root, approved.value.identity, false, true)];
      byRoot := byRoot[root := systemId];
      result := BumpBindingGeneration(systemId);
    }

    method Rebind(systemId: SystemId, probe: Probe) returns (result: Result<SystemId, Error>)
      modifies this
      ensures Out(Abs(), result) == Model.Rebind(old(Abs()), systemId, probe)
    {
      hide IsWithin, OverlapIssue;
      if systemId !in byId {
        return Failure(SystemNotRegistered);
      }
      var approved := Approve(probe);
      if approved.Failure? {
        return Failure(approved.error);
      }
      var root := approved.value.root;
      var issue := AssertNoOverlap(root, Some(systemId));
      if issue.Some? {
        return Failure(issue.value);
      }
      var former := byId[systemId].root;
      if former in byRoot && byRoot[former] == systemId {
        byRoot := byRoot - {former};
      }
      byId := byId[systemId := Record(root, approved.value.identity, false, true)];
      byRoot := byRoot[root := systemId];
      result := BumpBindingGeneration(systemId);
    }

    method Unregister(systemId: SystemId) returns (removed: bool)
      modifies this
      ensures Out(Abs(), Success(removed)) == Model.Unregister(old(Abs()), systemId)
    {
      if systemId !in byId {
        return false;
      }
      var former := byId[systemId].root;
      byId := byId - {systemId};
      bindingGenerations := bindingGenerations - {systemId};
      if former in byRoot && byRoot[former] == systemId {
        byRoot := byRoot - {former};
      }
      removed := true;
    }

    method MarkIdentityDrift(systemId: SystemId)
      requires systemId in byId
      modifies this`byId
      ensures byId == old(byId)[systemId := old(byId)[systemId].(authorized := false, drifted := true)]
    {
      byId := byId[systemId := byId[systemId].(authorized := false, drifted := true)];
    }

    method ResolveRoot(systemId: SystemId, reading: Option<Identity>) returns (result: Result<Path, Error>)
      modifies this`byId
      ensures Out(Abs(), result) == Model.ResolveRoot(old(Abs()), systemId, reading)
    {
      if systemId !in byId {
        return Failure(SystemNotRegistered);
      }
      var record := byId[systemId];
      if !record.authorized {
        return Failure(SystemUnauthorized);
      }
      if reading != Some(record.identity) {
        MarkIdentityDrift(systemId);
        return Failure(SystemIdentityDrift);
      }
      result := Success(record.root);
    }

    method BindingGeneration(systemId: SystemId, reading: Option<Identity>) returns (result: Result<nat, Error>)
      modifies this`byId
      ensures Out(Abs(), result) == Model.BindingGeneration(old(Abs()), systemId, reading)
    {
      var resolved := ResolveRoot(systemId, reading);
      if resolved.Failure? {
        return Failure(resolved.error);
      }
      result := Success(if systemId in bindingGenerations then bindingGenerations[systemId] else 0);
    }

    method Revalidate(systemId: SystemId, reading: Option<Identity>, compatible: bool) returns (result: Result<bool, Error>)
      modifies this`byId
      ensures Out(Abs(), result) == Model.Revalidate(old(Abs()), systemId, reading, compatible)
    {
      if systemId !in byId {
        return Failure(SystemNotRegistered);
      }
      var record := byId[systemId];
      if record.drifted {
        return Success(false);
      }
      if reading != Some(record.identity) {
        MarkIdentityDrift(systemId);
        return Success(false);
      }
      byId := byId[systemId := record.(authorized := compatible)];
      result := Success(compatible);
    }

    /** The guard that every effect repeats. */
    method HoldsLease(systemId: SystemId, root: Path, generation: nat, first: Option<Identity>, second: Option<Identity>)
      returns (passes: bool)
      modifies this`byId
      ensures Check(Abs(), passes) == CheckLease(old(Abs()), systemId, root, generation, first, second)
    {
      var resolved := ResolveRoot(systemId, first);
      if resolved != Success(root) {
        return false;
      }
      var current := BindingGeneration(systemId, second);
      passes := current == Success(generation);
    }
  }
}
