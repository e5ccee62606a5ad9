/** What the registry promises about each call and about every run, said of the
    readings and paths themselves. */
module RegistryGuarantees {
  import opened Wrappers
  import opened ScopeKeys
  import opened OwnerRegistry

  // ---------- Which candidates are approved ----------

  /** Both readings found the root and identified the same directory. */
  ghost predicate Approved(probe: Probe, root: Path, identity: Identity) {
    && probe.firstRoot.Some? && probe.secondRoot == Some(root)
    && probe.firstIdentity == probe.secondIdentity == Some(identity)
  }

  /** One path is the other, or lies below it outside a segment that begins with two
      dots. */
  ghost predicate Collide(a: Path, b: Path) {
    || (a <= b && (a == b || !(".." <= b[|a|])))
    || (b <= a && (a == b || !(".." <= a[|b|])))
  }

  lemma ApprovedExactly(probe: Probe, root: Path, identity: Identity)
    ensures Approve(probe) == Success(Binding(root, identity)) <==> Approved(probe, root, identity)
  {
  }

  lemma CollideExactly(a: Path, b: Path)
    ensures Collide(a, b) <==> IsWithin(a, b) || IsWithin(b, a)
  {
    IsWithinExactly(a, b);
    IsWithinExactly(b, a);
  }

  lemma OverlapExactly(r: Registry, root: Path, own: Option<SystemId>)
    ensures OverlapIssue(r, root, own).None?
            <==> forall other :: other in r.byRoot && Collide(other, root) ==> Some(r.byRoot[other]) == own
    ensures OverlapIssue(r, root, own) == Some(SystemDuplicate) <==> root in r.byRoot && Some(r.byRoot[root]) != own
    ensures OverlapIssue(r, root, own) in {None, Some(SystemDuplicate), Some(SystemOverlap)}
  {
    hide Collide, IsWithin;
    forall other | other in r.byRoot
      ensures Overlaps(r, root, own, other) <==> Some(r.byRoot[other]) != own && Collide(other, root)
    {
      CollideExactly(other, root);
    }
    PathsCollideWithThemselves(root);
  }

  lemma PathsCollideWithThemselves(root: Path)
    ensures Collide(root, root)
  {
  }

  // ---------- Names given by the registry ----------

  function ValueOf(digits: string): nat
    requires forall i :: 0 <= i < |digits| ==> '0' <= digits[i] <= '9'
  {
    if digits == "" then 0
    else 10 * ValueOf(digits[..|digits| - 1]) + (digits[|digits| - 1] - '0') as nat
  }

  lemma {:induction false} DigitsRead(n: nat)
    ensures Digits(n) != ""
    ensures forall i :: 0 <= i < |Digits(n)| ==> '0' <= Digits(n)[i] <= '9'
    ensures ValueOf(Digits(n)) == n
    ensures n > 0 ==> Digits(n)[0] != '0'
    ensures |Digits(n)| >= 2 <==> n >= 10
  {
    var last := "0123456789"[n % 10];
    assert last - '0' == (n % 10) as char;
    if n >= 10 {
      DigitsRead(n / 10);
      assert Digits(n)[..|Digits(n)| - 1] == Digits(n / 10);
    } else {
      assert Digits(n) == [last] && [last][..0] == "";
    }
  }

  /** A name is the prefix and the decimal number, with a zero in front of a single
      digit only; so no two numbers share a name. */
  lemma NamesRead(n: nat)
    ensures "aiverse-" <= AutoId(n)
    ensures var number := AutoId(n)[8..];
            && (forall i :: 0 <= i < |number| ==> '0' <= number[i] <= '9')
            && |number| >= 2 && ValueOf(number) == n && (|number| > 2 ==> number[0] != '0')
  {
    DigitsRead(n);
    var number := AutoId(n)[8..];
    assert number == (if n < 10 then "0" else "") + Digits(n);
    if n < 10 {
      assert number[..1] == "0" && number[1] == Digits(n)[0] && ValueOf("0") == 0;
    }
  }

  lemma NamesAreDistinct(m: nat, n: nat)
    requires AutoId(m) == AutoId(n)
    ensures m == n
  {
    NamesRead(m);
    NamesRead(n);
  }

  /** The id that a registration is for. */
  function NameFor(r: Registry, wanted: Option<SystemId>): SystemId {
    if wanted.Some? then wanted.value else AutoId(r.counter + 1)
  }

  // ---------- Calls ----------

  /** The registry with the system approved for the directory, under the next
      generation if there is one. */
  ghost predicate BoundAnew(r: Registry, s: Registry, id: SystemId, root: Path, identity: Identity) {
    && s.byId == r.byId[id := Record(root, identity, false, true)]
    && (if r.serial < 9_007_199_254_740_991
        then s.serial == r.serial + 1 && s.generations == r.generations[id := s.serial]
        else s.serial == r.serial && s.generations == r.generations)
  }

  function Renewed(r: Registry, id: SystemId): Result<SystemId, Error> {
    if r.serial < 9_007_199_254_740_991 then Success(id) else Failure(GenerationExhausted)
  }

  /** An approved directory that collides with no registered root is registered under
      a valid and unused id. */
  lemma RegisterAccepts(r: Registry, probe: Probe, wanted: Option<SystemId>, root: Path, identity: Identity)
    requires Approved(probe, root, identity) && forall other :: other in r.byRoot ==> !Collide(other, root)
    requires (wanted.Some? ==> IsSystemId(wanted.value)) && NameFor(r, wanted) !in r.byId
    ensures var out, id := Register(r, probe, wanted), NameFor(r, wanted);
            && out.result == Renewed(r, id) && BoundAnew(r, out.reg, id, root, identity)
            && out.reg.byRoot == r.byRoot[root := id]
            && out.reg.counter == if wanted.None? then r.counter + 1 else r.counter
  {
    hide Collide, IsSystemId, AutoId, OverlapIssue;
    ApprovedExactly(probe, root, identity);
    OverlapExactly(r, root, None);
  }

  /** Anything else is refused for the first reason that applies, and changes nothing
      but the number of names given out. */
  lemma RegisterRefuses(r: Registry, probe: Probe, wanted: Option<SystemId>)
    ensures var out, id := Register(r, probe, wanted), NameFor(r, wanted);
            && ((forall root, identity :: !Approved(probe, root, identity)) ==>
                  out.reg == r && (out.result == Failure(OsIncompatible) || out.result == Failure(OsNotFound)))
            && (forall root, identity :: Approved(probe, root, identity) ==>
                  if root in r.byRoot then
                    out == Out(r, Failure(SystemDuplicate))
                  else if exists other :: other in r.byRoot && Collide(other, root) then
                    out == Out(r, Failure(SystemOverlap))
                  else if wanted.Some? && !IsSystemId(id) then
                    out == Out(r, Failure(InvalidId))
                  else if id in r.byId then
                    && out.result == Failure(SystemDuplicate)
                    && out.reg == if wanted.None? then r.(counter := r.counter + 1) else r
                  else
                    out.result == Renewed(r, id))
  {
    hide Collide, IsSystemId, AutoId, OverlapIssue, Approved, BoundAnew;
    UnapprovedIsRefused(probe);
    forall root, identity | Approved(probe, root, identity)
      ensures Approve(probe) == Success(Binding(root, identity))
    {
      ApprovedExactly(probe, root, identity);
    }
    if Approve(probe).Success? {
      var binding := Approve(probe).value;
      ApprovedExactly(probe, binding.root, binding.identity);
      OverlapExactly(r, binding.root, None);
    }
  }

  /** A candidate that is not approved is refused as missing when a root was found
      that could not be identified, and else as incompatible. */
  lemma UnapprovedIsRefused(probe: Probe)
    ensures Approve(probe).Success? || Approve(probe) == Failure(OsIncompatible) || Approve(probe) == Failure(OsNotFound)
    ensures Approve(probe).Success? ==> Approved(probe, Approve(probe).value.root, Approve(probe).value.identity)
    ensures Approve(probe) == Failure(OsNotFound)
            <==> && probe.firstRoot.Some?
                 && (probe.firstIdentity.None? || (probe.secondRoot.Some? && probe.secondIdentity.None?))
  {
  }

  /** A rebind approves a directory for a known system if no other system's root
      collides with it; otherwise it changes nothing. */
  lemma RebindExactly(r: Registry, id: SystemId, probe: Probe)
    requires RegInv(r)
    ensures var out := Rebind(r, id, probe);
            && (id !in r.byId ==> out == Out(r, Failure(SystemNotRegistered)))
            && (id in r.byId && (forall root, identity :: !Approved(probe, root, identity)) ==>
                  out.reg == r && (out.result == Failure(OsIncompatible) || out.result == Failure(OsNotFound)))
            && (forall root, identity :: id in r.byId && Approved(probe, root, identity) ==>
                  if root in r.byRoot && r.byRoot[root] != id then
                    out == Out(r, Failure(SystemDuplicate))
                  else if exists other :: other in r.byRoot && r.byRoot[other] != id && Collide(other, root) then
                    out == Out(r, Failure(SystemOverlap))
                  else
                    && out.result == Renewed(r, id) && BoundAnew(r, out.reg, id, root, identity)
                    && out.reg.byRoot == (r.byRoot - {r.byId[id].root})[root := id]
                    && out.reg.counter == r.counter)
  {
    hide Collide, OverlapIssue, Approved, RootsApart, GenerationsUnique;
    UnapprovedIsRefused(probe);
    forall root, identity | Approved(probe, root, identity)
      ensures Approve(probe) == Success(Binding(root, identity))
    {
      ApprovedExactly(probe, root, identity);
    }
    if Approve(probe).Success? {
      OverlapExactly(r, Approve(probe).value.root, Some(id));
    }
  }

  /** An unregister takes exactly the system, its root and its generation away. */
  lemma UnregisterExactly(r: Registry, id: SystemId)
    requires RegInv(r)
    ensures var out := Unregister(r, id);
            && out.result == Success(id in r.byId)
            && out.reg.byId == r.byId - {id}
            && out.reg.generations == (if id in r.byId then r.generations - {id} else r.generations)
            && out.reg.byRoot == (if id in r.byId then r.byRoot - {r.byId[id].root} else r.byRoot)
            && out.reg.serial == r.serial && out.reg.counter == r.counter
  {
    hide RootsApart, GenerationsUnique;
    assert id !in r.byId ==> r.byId - {id} == r.byId;
  }

  /** A system resolves exactly while it is authorised and the approved directory is in
      place. Anything else read in its place marks it as drifted; nothing else does. */
  lemma ReadingExactly(r: Registry, id: SystemId, reading: Option<Identity>, compatible: bool)
    ensures var out, checked := ResolveRoot(r, id, reading), Revalidate(r, id, reading, compatible);
            if id !in r.byId then
              out == Out(r, Failure(SystemNotRegistered)) && checked == Out(r, Failure(SystemNotRegistered))
            else
              var record := r.byId[id];
              var drifted := r.(byId := r.byId[id := record.(authorized := false, drifted := true)]);
              && (if !record.authorized then out == Out(r, Failure(SystemUnauthorized))
                  else if reading == Some(record.identity) then out == Out(r, Success(record.root))
                  else out == Out(drifted, Failure(SystemIdentityDrift)))
              && (if record.drifted then checked == Out(r, Success(false))
                  else if reading == Some(record.identity) then
                    checked == Out(r.(byId := r.byId[id := record.(authorized := compatible)]), Success(compatible))
                  else checked == Out(drifted, Success(false)))
  {
  }

  // ---------- Runs ----------

  /** The system that an event may change. */
  function Target(r: Registry, e: Event): SystemId {
    match e
    case DoRegister(_, wanted) => NameFor(r, wanted)
    case DoRebind(id, _) => id
    case DoUnregister(id) => id
    case DoResolve(id, _) => id
    case DoRevalidate(id, _, _) => id
  }

  /** The record, the root and the generation of a system stay as they are. */
  ghost predicate SystemStays(r: Registry, s: Registry, id: SystemId) {
    && (id in s.byId <==> id in r.byId) && (id in r.byId ==> s.byId[id] == r.byId[id])
    && (id in s.generations <==> id in r.generations) && GenerationOf(s, id) == GenerationOf(r, id)
    && forall root :: root in r.byRoot && r.byRoot[root] == id ==> root in s.byRoot && s.byRoot[root] == id
  }

  /** An event about one system leaves every other one as it is. */
  lemma OtherSystemsStay(r: Registry, e: Event, id: SystemId)
    requires RegInv(r) && Target(r, e) != id
    ensures SystemStays(r, Step(r, e), id)
  {
    hide RegInv, AutoId, Register, Rebind, SystemStays;
    match e {
      case DoRegister(probe, wanted) => RegisterLeavesOthers(r, probe, wanted, id);
      case DoRebind(target, probe) => RebindLeavesOthers(r, target, probe, id);
      case _ => OtherEventsLeaveOthers(r, e, id);
    }
  }

  lemma RegisterLeavesOthers(r: Registry, probe: Probe, wanted: Option<SystemId>, id: SystemId)
    requires NameFor(r, wanted) != id
    ensures SystemStays(r, Register(r, probe, wanted).reg, id)
  {
    hide AutoId, IsSystemId, OverlapIssue;
    if Approve(probe).Success? {
      OverlapKeepsRoots(r, Approve(probe).value.root, None);
    }
  }

  lemma RebindLeavesOthers(r: Registry, target: SystemId, probe: Probe, id: SystemId)
    requires target != id
    ensures SystemStays(r, Rebind(r, target, probe).reg, id)
  {
    hide OverlapIssue;
    if Approve(probe).Success? {
      OverlapKeepsRoots(r, Approve(probe).value.root, Some(target));
    }
  }

  lemma OtherEventsLeaveOthers(r: Registry, e: Event, id: SystemId)
    requires Target(r, e) != id && !e.DoRegister? && !e.DoRebind?
    ensures SystemStays(r, Step(r, e), id)
  {
    hide AutoId, Register, Rebind;
  }

  lemma OverlapKeepsRoots(r: Registry, root: Path, own: Option<SystemId>)
    ensures OverlapIssue(r, root, own).None? && root in r.byRoot ==> Some(r.byRoot[root]) == own
  {
  }

  /** The event approves this directory for the system. */
  ghost predicate Approves(r: Registry, e: Event, id: SystemId, root: Path, identity: Identity) {
    match e
    case DoRegister(probe, wanted) => id == NameFor(r, wanted) && id !in r.byId && Approved(probe, root, identity)
    case DoRebind(target, probe) => id == target && id in r.byId && Approved(probe, root, identity)
    case _ => false
  }

  /** The binding of a system after a step is the one before, or was approved in it. */
  ghost predicate KeptOrApproved(r: Registry, e: Event, id: SystemId, s: Registry) {
    id in s.byId ==>
      || (id in r.byId && r.byId[id].root == s.byId[id].root && r.byId[id].identity == s.byId[id].identity
          && e != DoUnregister(id))
      || Approves(r, e, id, s.byId[id].root, s.byId[id].identity)
  }

  lemma StepApproves(r: Registry, e: Event, id: SystemId)
    ensures KeptOrApproved(r, e, id, Step(r, e))
  {
    hide AutoId, Register, Rebind, KeptOrApproved;
    match e {
      case DoRegister(probe, wanted) => RegisterApproves(r, probe, wanted, id);
      case DoRebind(target, probe) => RebindApproves(r, target, probe, id);
      case _ => OthersApproveNothing(r, e, id);
    }
  }

  lemma RegisterApproves(r: Registry, probe: Probe, wanted: Option<SystemId>, id: SystemId)
    ensures KeptOrApproved(r, DoRegister(probe, wanted), id, Register(r, probe, wanted).reg)
  {
    hide AutoId, IsSystemId, OverlapIssue, Approved;
    UnapprovedIsRefused(probe);
  }

  lemma RebindApproves(r: Registry, target: SystemId, probe: Probe, id: SystemId)
    ensures KeptOrApproved(r, DoRebind(target, probe), id, Rebind(r, target, probe).reg)
  {
    hide OverlapIssue, Approved;
    UnapprovedIsRefused(probe);
  }

  lemma OthersApproveNothing(r: Registry, e: Event, id: SystemId)
    requires !e.DoRegister? && !e.DoRebind?
    ensures KeptOrApproved(r, e, id, Step(r, e))
  {
    hide AutoId, Register, Rebind;
  }

  function At(events: seq<Event>, k: nat): Registry
    requires k <= |events|
  {
    After(EmptyRegistry, events[..k])
  }

  lemma AtNext(events: seq<Event>, k: nat)
    requires k < |events|
    ensures At(events, k + 1) == Step(At(events, k), events[k]) && RegInv(At(events, k))
  {
    hide Step, RegInv;
    EmptyIsConsistent();
    EveryRunKeepsInv(EmptyRegistry, events[..k]);
    AfterAppend(EmptyRegistry, events[..k], [events[k]]);
    assert events[..k + 1] == events[..k] + [events[k]];
    var r := At(events, k);
    assert [events[k]][1..] == [] && After(Step(r, events[k]), []) == Step(r, events[k]);
    assert After(r, [events[k]]) == Step(r, events[k]);
  }

  /** In every run a registered system is bound to a directory that was read alike
      twice when it was approved for it, and it was not unregistered since. */
  lemma {:induction false} BindingsWereApproved(events: seq<Event>, k: nat, id: SystemId)
    requires k <= |events| && id in At(events, k).byId
    ensures var record := At(events, k).byId[id];
            exists j: nat :: j < k && Approves(At(events, j), events[j], id, record.root, record.identity)
              && forall m :: j <= m < k ==> events[m] != DoUnregister(id)
  {
    hide Step, Approves, RegInv, After;
    if k == 0 {
      NothingIsRegistered(events);
    } else {
      var n: nat := k - 1;
      AtNext(events, n);
      StepApproves(At(events, n), events[n], id);
      var record := At(events, k).byId[id];
      if Approves(At(events, n), events[n], id, record.root, record.identity) {
        ApprovalIsNoUnregister(At(events, n), events[n], id, record.root, record.identity);
      } else {
        BindingsWereApproved(events, n, id);
      }
    }
  }

  lemma ApprovalIsNoUnregister(r: Registry, e: Event, id: SystemId, root: Path, identity: Identity)
    requires Approves(r, e, id, root, identity)
    ensures e != DoUnregister(id)
  {
  }

  lemma NothingIsRegistered(events: seq<Event>)
    ensures At(events, 0).byId == map[]
  {
    assert events[..0] == [];
  }
}
