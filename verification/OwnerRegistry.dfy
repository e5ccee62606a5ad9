/** The registry of approved OS roots and its lease generations. What the
    filesystem reports at each probe is chosen by the environment. */
module OwnerRegistry {
  import opened Wrappers
  import opened ScopeKeys

  type SystemId = string

  /** A canonical absolute path as its segments. */
  type Path = seq<string>

  /** What identifies a directory: its canonical path, device, inode and birth time. */
  datatype Identity = Identity(realpath: Path, device: string, inode: string, birthTime: string)

  datatype Error =
    | OsIncompatible | OsNotFound | InvalidId
    | SystemDuplicate | SystemOverlap | SystemNotRegistered
    | SystemUnauthorized | SystemIdentityDrift | GenerationExhausted

  // ---------- Nesting of roots ----------

  function CommonPrefix(a: Path, b: Path): (n: nat)
    ensures n <= |a| && n <= |b|
  {
    if a == [] || b == [] || a[0] != b[0] then 0 else 1 + CommonPrefix(a[1..], b[1..])
  }

  lemma {:induction false} CommonPrefixIsLongest(a: Path, b: Path)
    ensures var n := CommonPrefix(a, b);
            a[..n] == b[..n] && (n < |a| && n < |b| ==> a[n] != b[n])
  {
    if a != [] && b != [] && a[0] == b[0] {
      CommonPrefixIsLongest(a[1..], b[1..]);
      var n := CommonPrefix(a[1..], b[1..]);
      assert a[..n + 1] == [a[0]] + a[1..][..n] && b[..n + 1] == [b[0]] + b[1..][..n];
    }
  }

  /** The segments of `path.relative(from, to)`: up to the common ancestor, then
      down. */
  function Relative(from: Path, to: Path): Path {
    var n := CommonPrefix(from, to);
    seq(|from| - n, _ => "..") + to[n..]
  }

  predicate StartsWithDots(segment: string) {
    |segment| >= 2 && segment[0] == '.' && segment[1] == '.'
  }

  predicate IsWithin(child: Path, parent: Path) {
    var rel := Relative(parent, child);
    rel == [] || !StartsWithDots(rel[0])
  }

  lemma {:induction false} PrefixIsCommon(a: Path, b: Path)
    requires a <= b
    ensures CommonPrefix(a, b) == |a|
  {
    if a != [] {
      PrefixIsCommon(a[1..], b[1..]);
    }
  }

  /** The test sees nesting except below a segment that begins with two dots. */
  lemma IsWithinExactly(child: Path, parent: Path)
    ensures IsWithin(child, parent)
            <==> parent <= child && (|child| > |parent| ==> !(".." <= child[|parent|]))
  {
    var n := CommonPrefix(parent, child);
    var rel := Relative(parent, child);
    CommonPrefixIsLongest(parent, child);
    if parent <= child {
      PrefixIsCommon(parent, child);
    }
    if n < |parent| {
      assert rel[0] == "..";
    } else {
      assert parent == parent[..n] == child[..n];
      assert rel == child[n..];
    }
  }

  // ---------- State ----------

  datatype Record = Record(root: Path, identity: Identity, drifted: bool, authorized: bool)

  datatype Registry = Registry(byId: map<SystemId, Record>, byRoot: map<Path, SystemId>, counter: nat,
                               generations: map<SystemId, nat>, serial: nat)

  const EmptyRegistry := Registry(map[], map[], 0, map[], 0)

  const MAX_SAFE_INTEGER: nat := 9_007_199_254_740_991

  // ---------- Approval of a candidate root ----------

  /** The four readings of an approval: the root is resolved and identified
      twice. */
  datatype Probe = Probe(firstRoot: Option<Path>, firstIdentity: Option<Identity>,
                         secondRoot: Option<Path>, secondIdentity: Option<Identity>)

  datatype Binding = Binding(root: Path, identity: Identity)

  function Approve(probe: Probe): Result<Binding, Error> {
    if probe.firstRoot.None? then Failure(OsIncompatible)
    else if probe.firstIdentity.None? then Failure(OsNotFound)
    else if probe.secondRoot.None? then Failure(OsIncompatible)
    else if probe.secondIdentity.None? then Failure(OsNotFound)
    else if probe.firstIdentity != probe.secondIdentity then Failure(OsIncompatible)
    else Success(Binding(probe.secondRoot.value, probe.secondIdentity.value))
  }

  predicate Overlaps(r: Registry, root: Path, own: Option<SystemId>, other: Path) {
    && other in r.byRoot && Some(r.byRoot[other]) != own
    && (IsWithin(root, other) || IsWithin(other, root))
  }

  function OverlapIssue(r: Registry, root: Path, own: Option<SystemId>): Option<Error> {
    if root in r.byRoot && Some(r.byRoot[root]) != own then Some(SystemDuplicate)
    else if exists other :: other in r.byRoot && Overlaps(r, root, own, other) then Some(SystemOverlap)
    else None
  }

  // ---------- Operations ----------

  datatype Out<T> = Out(reg: Registry, result: Result<T, Error>)

  function Bump(r: Registry, id: SystemId): Out<SystemId> {
    if r.serial + 1 > MAX_SAFE_INTEGER then
      Out(r, Failure(GenerationExhausted))
    else
      Out(r.(serial := r.serial + 1, generations := r.generations[id := r.serial + 1]), Success(id))
  }

  function Bind(r: Registry, id: SystemId, binding: Binding): Registry {
    r.(byId := r.byId[id := Record(binding.root, binding.identity, false, true)],
       byRoot := r.byRoot[binding.root := id])
  }

  function Digits(n: nat): string {
    if n < 10 then ["0123456789"[n]] else Digits(n / 10) + ["0123456789"[n % 10]]
  }

  function AutoId(n: nat): SystemId {
    "aiverse-" + (if n < 10 then "0" else "") + Digits(n)
  }

  function Register(r: Registry, probe: Probe, wanted: Option<SystemId>): Out<SystemId> {
    match Approve(probe)
    case Failure(error) => Out(r, Failure(error))
    case Success(binding) =>
      var issue := OverlapIssue(r, binding.root, None);
      if issue.Some? then
        Out(r, Failure(issue.value))
      else
        var counted := if wanted.None? then r.(counter := r.counter + 1) else r;
        var id := if wanted.None? then AutoId(counted.counter) else wanted.value;
        if wanted.Some? && !IsSystemId(id) then Out(counted, Failure(InvalidId))
        else if id in r.byId then Out(counted, Failure(SystemDuplicate))
        else Bump(Bind(counted, id, binding), id)
  }

  function ForgetRoot(r: Registry, root: Path, id: SystemId): Registry {
    if root in r.byRoot && r.byRoot[root] == id then r.(byRoot := r.byRoot - {root}) else r
  }

  function Rebind(r: Registry, id: SystemId, probe: Probe): Out<SystemId> {
    if id !in r.byId then
      Out(r, Failure(SystemNotRegistered))
    else
      match Approve(probe)
      case Failure(error) => Out(r, Failure(error))
      case Success(binding) =>
        var issue := OverlapIssue(r, binding.root, Some(id));
        if issue.Some? then Out(r, Failure(issue.value))
        else Bump(Bind(ForgetRoot(r, r.byId[id].root, id), id, binding), id)
  }

  function Unregister(r: Registry, id: SystemId): Out<bool> {
    if id !in r.byId then
      Out(r, Success(false))
    else
      var dropped := r.(byId := r.byId - {id}, generations := r.generations - {id});
      Out(ForgetRoot(dropped, r.byId[id].root, id), Success(true))
  }

  /** `reading` is what identifying the approved root yields now. */
  function ResolveRoot(r: Registry, id: SystemId, reading: Option<Identity>): Out<Path> {
    if id !in r.byId then
      Out(r, Failure(SystemNotRegistered))
    else if !r.byId[id].authorized then
      Out(r, Failure(SystemUnauthorized))
    else if reading != Some(r.byId[id].identity) then
      Out(r.(byId := r.byId[id := r.byId[id].(authorized := false, drifted := true)]), Failure(SystemIdentityDrift))
    else
      Out(r, Success(r.byId[id].root))
  }

  function GenerationOf(r: Registry, id: SystemId): nat {
    if id in r.generations then r.generations[id] else 0
  }

  function BindingGeneration(r: Registry, id: SystemId, reading: Option<Identity>): Out<nat> {
    var resolved := ResolveRoot(r, id, reading);
    match resolved.result
    case Failure(error) => Out(resolved.reg, Failure(error))
    case Success(_) => Out(resolved.reg, Success(GenerationOf(resolved.reg, id)))
  }

  function Revalidate(r: Registry, id: SystemId, reading: Option<Identity>, compatible: bool): Out<bool> {
    if id !in r.byId then
      Out(r, Failure(SystemNotRegistered))
    else if r.byId[id].drifted then
      Out(r, Success(false))
    else if reading != Some(r.byId[id].identity) then
      Out(r.(byId := r.byId[id := r.byId[id].(authorized := false, drifted := true)]), Success(false))
    else
      Out(r.(byId := r.byId[id := r.byId[id].(authorized := compatible)]), Success(compatible))
  }

  /** A lease check: root first, then generation, with a reading for each. */
  datatype Check = Check(reg: Registry, passes: bool)

  function CheckLease(r: Registry, id: SystemId, root: Path, generation: nat,
                      first: Option<Identity>, second: Option<Identity>): Check {
    var resolved := ResolveRoot(r, id, first);
    if resolved.result != Success(root) then
      Check(resolved.reg, false)
    else
      var current := BindingGeneration(resolved.reg, id, second);
      Check(current.reg, current.result == Success(generation))
  }

  // ---------- Runs ----------

  datatype Event =
    | DoRegister(probe: Probe, wanted: Option<SystemId>)
    | DoRebind(id: SystemId, probe: Probe)
    | DoUnregister(id: SystemId)
    | DoResolve(id: SystemId, reading: Option<Identity>)
    | DoRevalidate(id: SystemId, reading: Option<Identity>, compatible: bool)

  function Step(r: Registry, e: Event): Registry {
    match e
    case DoRegister(probe, wanted) => Register(r, probe, wanted).reg
    case DoRebind(id, probe) => Rebind(r, id, probe).reg
    case DoUnregister(id) => Unregister(r, id).reg
    case DoResolve(id, reading) => ResolveRoot(r, id, reading).reg
    case DoRevalidate(id, reading, compatible) => Revalidate(r, id, reading, compatible).reg
  }

  function After(r: Registry, events: seq<Event>): Registry
    decreases |events|
  {
    if events == [] then r else After(Step(r, events[0]), events[1..])
  }

  lemma {:induction false} AfterAppend(r: Registry, a: seq<Event>, b: seq<Event>)
    ensures After(r, a + b) == After(After(r, a), b)
    decreases |a|
  {
    if a == [] {
      assert a + b == b;
    } else {
      AfterAppend(Step(r, a[0]), a[1..], b);
      assert (a + b)[1..] == a[1..] + b;
    }
  }

  /** A successful register, rebind or unregister of the system. */
  predicate Renews(r: Registry, e: Event, id: SystemId) {
    match e
    case DoRegister(probe, wanted) => Register(r, probe, wanted).result == Success(id)
    case DoRebind(target, probe) => target == id && Rebind(r, target, probe).result.Success?
    case DoUnregister(target) => target == id && Unregister(r, target).result == Success(true)
    case _ => false
  }

  /** No event of the run renews the binding of the system. */
  predicate Undisturbed(r: Registry, events: seq<Event>, id: SystemId)
    decreases |events|
  {
    events == [] || (!Renews(r, events[0], id) && Undisturbed(Step(r, events[0]), events[1..], id))
  }

  // ---------- Consistency of the maps ----------

  ghost predicate MapsAgree(byId: map<SystemId, Record>, byRoot: map<Path, SystemId>) {
    && (forall id :: id in byId ==> byId[id].root in byRoot && byRoot[byId[id].root] == id)
    && (forall root :: root in byRoot ==> byRoot[root] in byId && byId[byRoot[root]].root == root)
  }

  ghost predicate GenerationsUnique(generations: map<SystemId, nat>, serial: nat) {
    && (forall id :: id in generations ==> 1 <= generations[id] <= serial)
    && (forall a, b :: a in generations && b in generations && a != b ==> generations[a] != generations[b])
  }

  ghost predicate RootsApart(byRoot: map<Path, SystemId>) {
    forall a, b :: a in byRoot && b in byRoot && a != b ==> !IsWithin(a, b)
  }

  ghost predicate RegInv(r: Registry) {
    && MapsAgree(r.byId, r.byRoot)
    && GenerationsUnique(r.generations, r.serial)
    && r.generations.Keys <= r.byId.Keys
    && r.serial <= MAX_SAFE_INTEGER
    && (r.serial < MAX_SAFE_INTEGER ==> r.generations.Keys == r.byId.Keys)
    && RootsApart(r.byRoot)
    && (forall id :: id in r.byId && r.byId[id].drifted ==> !r.byId[id].authorized)
  }

  lemma OverlapKeepsApart(r: Registry, root: Path, own: Option<SystemId>)
    requires OverlapIssue(r, root, own).None?
    ensures forall other :: other in r.byRoot && Some(r.byRoot[other]) != own ==>
              other != root && !IsWithin(root, other) && !IsWithin(other, root)
  {
    forall other | other in r.byRoot && Some(r.byRoot[other]) != own
      ensures other != root && !IsWithin(root, other) && !IsWithin(other, root)
    {
      assert !Overlaps(r, root, own, other);
    }
  }

  lemma BindKeepsApart(r: Registry, id: SystemId, binding: Binding, own: Option<SystemId>)
    requires RootsApart(r.byRoot) && MapsAgree(r.byId, r.byRoot) && OverlapIssue(r, binding.root, own).None?
    requires own == None ==> id !in r.byId
    requires own.Some? ==> own.value == id && id in r.byId
    ensures var base := if own.Some? then ForgetRoot(r, r.byId[id].root, id) else r;
            RootsApart(Bind(base, id, binding).byRoot) && MapsAgree(Bind(base, id, binding).byId, Bind(base, id, binding).byRoot)
  {
    hide IsWithin;
    OverlapKeepsApart(r, binding.root, own);
  }

  lemma BumpKeepsInv(r: Registry, id: SystemId)
    requires BoundInv(r, id) && id in r.byId
    ensures RegInv(Bump(r, id).reg)
  {
    hide IsWithin;
  }

  /** The invariant between the binding of a system and its new generation. */
  ghost predicate BoundInv(r: Registry, id: SystemId) {
    && MapsAgree(r.byId, r.byRoot)
    && GenerationsUnique(r.generations, r.serial)
    && r.generations.Keys <= r.byId.Keys
    && r.serial <= MAX_SAFE_INTEGER
    && (r.serial < MAX_SAFE_INTEGER ==> r.generations.Keys + {id} == r.byId.Keys)
    && RootsApart(r.byRoot)
    && (forall other :: other in r.byId && r.byId[other].drifted ==> !r.byId[other].authorized)
  }

  lemma RegisterKeepsInv(r: Registry, probe: Probe, wanted: Option<SystemId>)
    requires RegInv(r)
    ensures RegInv(Register(r, probe, wanted).reg)
  {
    hide IsWithin, IsSystemId, AutoId, OverlapIssue, Bump;
    if Approve(probe).Success? {
      var binding := Approve(probe).value;
      if OverlapIssue(r, binding.root, None).None? {
        var counted := if wanted.None? then r.(counter := r.counter + 1) else r;
        var id := if wanted.None? then AutoId(counted.counter) else wanted.value;
        if id !in r.byId {
          BindKeepsApart(r, id, binding, None);
          assert BoundInv(Bind(counted, id, binding), id) by {
            hide MapsAgree, RootsApart;
          }
          BumpKeepsInv(Bind(counted, id, binding), id);
        }
      }
    }
  }

  lemma UnregisterKeepsInv(r: Registry, id: SystemId)
    requires RegInv(r)
    ensures RegInv(Unregister(r, id).reg)
  {
    hide IsWithin;
  }

  lemma MarkKeepsInv(r: Registry, id: SystemId, record: Record)
    requires RegInv(r) && id in r.byId && record.root == r.byId[id].root
    requires record.drifted ==> !record.authorized
    ensures RegInv(r.(byId := r.byId[id := record]))
  {
    hide IsWithin, GenerationsUnique, RootsApart;
  }

  lemma ReadingKeepsInv(r: Registry, id: SystemId, reading: Option<Identity>, compatible: bool)
    requires RegInv(r)
    ensures RegInv(ResolveRoot(r, id, reading).reg)
    ensures RegInv(Revalidate(r, id, reading, compatible).reg)
  {
    hide RegInv;
    if id in r.byId {
      MarkKeepsInv(r, id, r.byId[id].(authorized := false, drifted := true));
      if !r.byId[id].drifted {
        MarkKeepsInv(r, id, r.byId[id].(authorized := compatible));
      }
    }
  }

  lemma RebindKeepsInv(r: Registry, id: SystemId, probe: Probe)
    requires RegInv(r)
    ensures RegInv(Rebind(r, id, probe).reg)
  {
    hide IsWithin, OverlapIssue;
    if id in r.byId && Approve(probe).Success? {
      var binding := Approve(probe).value;
      if OverlapIssue(r, binding.root, Some(id)).None? {
        BindKeepsApart(r, id, binding, Some(id));
      }
    }
  }

  lemma StepKeepsInv(r: Registry, e: Event)
    requires RegInv(r)
    ensures RegInv(Step(r, e))
  {
    hide RegInv, Register, Rebind, Unregister, ResolveRoot, Revalidate;
    match e {
      case DoRegister(probe, wanted) => RegisterKeepsInv(r, probe, wanted);
      case DoRebind(id, probe) => RebindKeepsInv(r, id, probe);
      case DoUnregister(id) => UnregisterKeepsInv(r, id);
      case DoResolve(id, reading) => ReadingKeepsInv(r, id, reading, true);
      case DoRevalidate(id, reading, compatible) => ReadingKeepsInv(r, id, reading, compatible);
    }
  }

  /** Whatever the filesystem reports, the maps stay consistent, generations stay
      unique and registered roots stay apart. */
  lemma {:induction false} EveryRunKeepsInv(r: Registry, events: seq<Event>)
    requires RegInv(r)
    ensures RegInv(After(r, events))
    decreases |events|
  {
    if events != [] {
      StepKeepsInv(r, events[0]);
      EveryRunKeepsInv(Step(r, events[0]), events[1..]);
    }
  }

  lemma EmptyIsConsistent()
    ensures RegInv(EmptyRegistry)
  {
  }

  /** Registered roots are never nested, unless the first segment below the outer
      root begins with two dots. */
  lemma RegisteredRootsAreNotNested(events: seq<Event>, outer: Path, inner: Path)
    requires var r := After(EmptyRegistry, events); outer in r.byRoot && inner in r.byRoot && outer != inner
    ensures outer < inner ==> ".." <= inner[|outer|]
  {
    EmptyIsConsistent();
    EveryRunKeepsInv(EmptyRegistry, events);
    IsWithinExactly(inner, outer);
  }

  // ---------- Leases ----------

  /** A generation that was once issued can no longer be that of the system. */
  ghost predicate Outdated(r: Registry, id: SystemId, generation: nat) {
    0 < generation <= r.serial && (id in r.generations ==> r.generations[id] > generation)
  }

  lemma RenewalOutdates(r: Registry, e: Event, id: SystemId, generation: nat)
    requires RegInv(r) && Renews(r, e, id) && 0 < generation <= r.serial
    ensures Outdated(Step(r, e), id, generation)
  {
    hide IsWithin, OverlapIssue, IsSystemId, AutoId;
  }

  lemma OutdatedStays(r: Registry, e: Event, id: SystemId, generation: nat)
    requires Outdated(r, id, generation)
    ensures Outdated(Step(r, e), id, generation)
  {
    hide IsWithin, OverlapIssue, IsSystemId, AutoId;
  }

  lemma {:induction false} OutdatedForGood(r: Registry, events: seq<Event>, id: SystemId, generation: nat)
    requires Outdated(r, id, generation)
    ensures Outdated(After(r, events), id, generation)
    decreases |events|
  {
    if events != [] {
      OutdatedStays(r, events[0], id, generation);
      OutdatedForGood(Step(r, events[0]), events[1..], id, generation);
    }
  }

  lemma SerialGrows(r: Registry, e: Event)
    ensures Step(r, e).serial >= r.serial
  {
    hide IsWithin, OverlapIssue, IsSystemId, AutoId;
  }

  lemma {:induction false} DisturbedIsOutdated(r: Registry, events: seq<Event>, id: SystemId, generation: nat)
    requires RegInv(r) && 0 < generation <= r.serial && !Undisturbed(r, events, id)
    ensures Outdated(After(r, events), id, generation)
    decreases |events|
  {
    var next := Step(r, events[0]);
    StepKeepsInv(r, events[0]);
    SerialGrows(r, events[0]);
    if Renews(r, events[0], id) {
      RenewalOutdates(r, events[0], id, generation);
      OutdatedForGood(next, events[1..], id, generation);
    } else {
      DisturbedIsOutdated(next, events[1..], id, generation);
    }
  }

  /** A lease check passes only on the very root and generation of the system, with
      its approved directory shown twice, and then changes nothing. */
  lemma PassingLeaseAgrees(r: Registry, id: SystemId, root: Path, generation: nat,
                           first: Option<Identity>, second: Option<Identity>)
    requires CheckLease(r, id, root, generation, first, second).passes
    ensures CheckLease(r, id, root, generation, first, second).reg == r
    ensures id in r.byId && r.byId[id].authorized && r.byId[id].root == root && GenerationOf(r, id) == generation
    ensures first == second == Some(r.byId[id].identity)
  {
  }

  /** A lease check that passes on a root and generation captured earlier proves
      that the system was not successfully registered, rebound or unregistered in
      between, not even back to the same root. */
  lemma PassingLeaseIsUndisturbed(r: Registry, events: seq<Event>, id: SystemId, root: Path,
                                  first: Option<Identity>, second: Option<Identity>)
    requires RegInv(r) && GenerationOf(r, id) > 0
    requires CheckLease(After(r, events), id, root, GenerationOf(r, id), first, second).passes
    ensures Undisturbed(r, events, id)
  {
    if !Undisturbed(r, events, id) {
      DisturbedIsOutdated(r, events, id, GenerationOf(r, id));
    }
  }

  lemma StepKeepsBinding(r: Registry, e: Event, id: SystemId)
    requires RegInv(r) && id in r.byId && !Renews(r, e, id) && Step(r, e).serial < MAX_SAFE_INTEGER
    ensures id in Step(r, e).byId && Step(r, e).byId[id].identity == r.byId[id].identity
    ensures Step(r, e).byId[id].root == r.byId[id].root
  {
    hide IsWithin, OverlapIssue, IsSystemId, AutoId;
  }

  lemma {:induction false} SerialGrowsOverRun(r: Registry, events: seq<Event>)
    ensures After(r, events).serial >= r.serial
    decreases |events|
  {
    if events != [] {
      SerialGrows(r, events[0]);
      SerialGrowsOverRun(Step(r, events[0]), events[1..]);
    }
  }

  lemma {:induction false} UndisturbedKeepsBinding(r: Registry, events: seq<Event>, id: SystemId)
    requires RegInv(r) && id in r.byId && Undisturbed(r, events, id)
    requires After(r, events).serial < MAX_SAFE_INTEGER
    ensures var s := After(r, events);
            id in s.byId && s.byId[id].identity == r.byId[id].identity && s.byId[id].root == r.byId[id].root
    decreases |events|
  {
    if events != [] {
      StepKeepsInv(r, events[0]);
      SerialGrowsOverRun(Step(r, events[0]), events[1..]);
      StepKeepsBinding(r, events[0], id);
      UndisturbedKeepsBinding(Step(r, events[0]), events[1..], id);
    }
  }

  /** Unless the generations have run out, a passing check also proves that the
      directory in place is still the one that was approved at the capture. */
  lemma PassingLeaseKeepsIdentity(r: Registry, events: seq<Event>, id: SystemId, root: Path,
                                  first: Option<Identity>, second: Option<Identity>)
    requires RegInv(r) && GenerationOf(r, id) > 0 && After(r, events).serial < MAX_SAFE_INTEGER
    requires CheckLease(After(r, events), id, root, GenerationOf(r, id), first, second).passes
    ensures first == second == Some(r.byId[id].identity) && root == r.byId[id].root
  {
    PassingLeaseIsUndisturbed(r, events, id, root, first, second);
    UndisturbedKeepsBinding(r, events, id);
  }

  // ---------- When the generations have run out ----------

  /** After an approved rebind the old lease passes for the new directory exactly
      when no generation was left and the root stayed the same. */
  lemma RebindKeepsLeaseExactly(r: Registry, id: SystemId, probe: Probe)
    requires RegInv(r) && id in r.byId && Approve(probe).Success?
    requires OverlapIssue(r, Approve(probe).value.root, Some(id)).None?
    ensures var binding := Approve(probe).value;
            var now := Some(binding.identity);
            CheckLease(Rebind(r, id, probe).reg, id, r.byId[id].root, GenerationOf(r, id), now, now).passes
            <==> r.serial == MAX_SAFE_INTEGER && binding.root == r.byId[id].root
  {
    hide IsWithin, OverlapIssue;
  }

  /** After an unregister and an approved registration the old lease passes for the
      new directory exactly when it had generation zero and the root stayed the
      same. */
  lemma ReregisterKeepsLeaseExactly(r: Registry, id: SystemId, probe: Probe)
    requires RegInv(r) && id in r.byId && IsSystemId(id) && Approve(probe).Success?
    requires OverlapIssue(Unregister(r, id).reg, Approve(probe).value.root, None).None?
    ensures var binding := Approve(probe).value;
            var now := Some(binding.identity);
            var s := Register(Unregister(r, id).reg, probe, Some(id)).reg;
            CheckLease(s, id, r.byId[id].root, GenerationOf(r, id), now, now).passes
            <==> GenerationOf(r, id) == 0 && binding.root == r.byId[id].root
  {
    hide IsWithin, OverlapIssue, IsSystemId;
  }

  const ROOT: Path := ["os"]

  /** The directory at the root, told apart by its inode. */
  function Directory(inode: string): Identity {
    Identity(ROOT, "d", inode, "t")
  }

  function ProbeOf(inode: string): Probe {
    Probe(Some(ROOT), Some(Directory(inode)), Some(ROOT), Some(Directory(inode)))
  }

  /** One registration and then n rebinds of one system. */
  function Rebinds(n: nat): seq<Event> {
    if n == 0 then [DoRegister(ProbeOf("1"), Some("a"))] else Rebinds(n - 1) + [DoRebind("a", ProbeOf("1"))]
  }

  lemma OneSystem(r: Registry, own: Option<SystemId>)
    requires r.byRoot.Keys <= {ROOT} && (ROOT in r.byRoot ==> Some(r.byRoot[ROOT]) == own)
    ensures OverlapIssue(r, ROOT, own).None?
  {
  }

  /** Every count of generations is reached from the empty registry. */
  lemma {:induction false} RebindsReach(n: nat)
    requires n < MAX_SAFE_INTEGER
    ensures After(EmptyRegistry, Rebinds(n))
            == Registry(map["a" := Record(ROOT, Directory("1"), false, true)], map[ROOT := "a"], 0,
                        map["a" := n + 1], n + 1)
  {
    if n == 0 {
      assert IsSystemId("a");
      OneSystem(EmptyRegistry, None);
      assert Rebinds(0)[1..] == [];
    } else {
      RebindsReach(n - 1);
      var r := After(EmptyRegistry, Rebinds(n - 1));
      var e := DoRebind("a", ProbeOf("1"));
      AfterAppend(EmptyRegistry, Rebinds(n - 1), [e]);
      OneSystem(r, Some("a"));
      assert r.byRoot - {ROOT} == map[];
      assert [e][1..] == [];
      assert After(r, [e]) == Step(r, e);
    }
  }

  /** A run from the empty registry after which a failing rebind leaves the lease in
      place for another directory at the same root. */
  lemma ExhaustedRebindKeepsLease()
    ensures exists events: seq<Event>, id: SystemId, probe: Probe, now: Identity ::
              var r := After(EmptyRegistry, events);
              && id in r.byId && GenerationOf(r, id) > 0
              && Rebind(r, id, probe).result == Failure(GenerationExhausted)
              && now != r.byId[id].identity
              && CheckLease(Rebind(r, id, probe).reg, id, r.byId[id].root, GenerationOf(r, id), Some(now), Some(now)).passes
  {
    hide After, Rebinds;
    RebindsReach(MAX_SAFE_INTEGER - 1);
    var events := Rebinds(MAX_SAFE_INTEGER - 1);
    var r, probe, now := After(EmptyRegistry, events), ProbeOf("2"), Directory("2");
    EmptyIsConsistent();
    EveryRunKeepsInv(EmptyRegistry, events);
    OneSystem(r, Some("a"));
    RebindKeepsLeaseExactly(r, "a", probe);
    assert now != r.byId["a"].identity;
    assert Rebind(r, "a", probe).result == Failure(GenerationExhausted);
    assert CheckLease(Rebind(r, "a", probe).reg, "a", r.byId["a"].root, GenerationOf(r, "a"), Some(now), Some(now)).passes;
  }

  /** A run from the empty registry after which a system that failed to register
      for want of a generation is in place with generation zero; a lease on it
      passes although the system was unregistered and registered in between. */
  lemma ZeroGenerationIsShared()
    ensures exists events: seq<Event>, id: SystemId, probe: Probe, now: Identity ::
              var r := After(EmptyRegistry, events);
              && id in r.byId && GenerationOf(r, id) == 0
              && var again := [DoUnregister(id), DoRegister(probe, Some(id))];
                 && !Undisturbed(r, again, id)
                 && now != r.byId[id].identity
                 && CheckLease(After(r, again), id, r.byId[id].root, GenerationOf(r, id), Some(now), Some(now)).passes
  {
    hide After, Rebinds, CheckLease;
    RebindsReach(MAX_SAFE_INTEGER - 1);
    var full := Rebinds(MAX_SAFE_INTEGER - 1);
    var first := Reregister("1");
    var again := Reregister("2");
    AfterAppend(EmptyRegistry, full, first);
    var r := After(EmptyRegistry, full + first);
    Reregistered(After(EmptyRegistry, full), "1");
    Reregistered(r, "2");
    assert r.byId["a"].identity == Directory("1");
    assert !Undisturbed(r, again, "a");
  }

  function Reregister(inode: string): seq<Event> {
    [DoUnregister("a"), DoRegister(ProbeOf(inode), Some("a"))]
  }

  lemma Reregistered(r: Registry, inode: string)
    requires r.byId.Keys == {"a"} && r.byRoot == map[ROOT := "a"] && r.byId["a"].root == ROOT
    requires r.serial == MAX_SAFE_INTEGER && r.generations.Keys <= {"a"}
    ensures var s := After(r, Reregister(inode));
            && s.byId == map["a" := Record(ROOT, Directory(inode), false, true)] && s.byRoot == map[ROOT := "a"]
            && s.generations == map[] && s.serial == MAX_SAFE_INTEGER
            && CheckLease(s, "a", ROOT, 0, Some(Directory(inode)), Some(Directory(inode))).passes
    ensures Renews(r, DoUnregister("a"), "a")
  {
    var events := Reregister(inode);
    var empty := Step(r, events[0]);
    assert empty.byId == map[] && empty.byRoot == map[] && empty.generations == map[];
    OneSystem(empty, None);
    assert IsSystemId("a");
    assert events[1..] == [events[1]] && events[1..][1..] == [];
    var s := Step(empty, events[1]);
    assert After(s, []) == s && After(empty, [events[1]]) == s && After(r, events) == s;
  }

  // ---------- Sticky drift ----------

  ghost predicate Drifted(r: Registry, id: SystemId) {
    id in r.byId && r.byId[id].drifted && !r.byId[id].authorized
  }

  /** The two ways out of drift: an approved rebind, and leaving the registry. */
  predicate ClearsDrift(r: Registry, e: Event, id: SystemId) {
    match e
    case DoRebind(target, probe) =>
      target == id && Approve(probe).Success? && OverlapIssue(r, Approve(probe).value.root, Some(id)).None?
    case DoUnregister(target) => target == id
    case _ => false
  }

  predicate NeverCleared(r: Registry, events: seq<Event>, id: SystemId)
    decreases |events|
  {
    events == [] || (!ClearsDrift(r, events[0], id) && NeverCleared(Step(r, events[0]), events[1..], id))
  }

  lemma DriftIsObserved(r: Registry, id: SystemId, reading: Option<Identity>)
    requires ResolveRoot(r, id, reading).result == Failure(SystemIdentityDrift)
    ensures Drifted(ResolveRoot(r, id, reading).reg, id)
  {
  }

  lemma StepClearsDrift(r: Registry, e: Event, id: SystemId)
    requires RegInv(r) && Drifted(r, id)
    ensures Drifted(Step(r, e), id) <==> !ClearsDrift(r, e, id)
  {
    hide IsWithin, OverlapIssue, IsSystemId, AutoId;
  }

  /** Once drift has been observed, every later resolution fails, whatever the
      filesystem then reports, until an approved rebind or an unregister. */
  lemma {:induction false} DriftIsSticky(r: Registry, events: seq<Event>, id: SystemId, reading: Option<Identity>)
    requires RegInv(r) && Drifted(r, id) && NeverCleared(r, events, id)
    ensures ResolveRoot(After(r, events), id, reading).result == Failure(SystemUnauthorized)
    decreases |events|
  {
    if events != [] {
      StepKeepsInv(r, events[0]);
      StepClearsDrift(r, events[0], id);
      DriftIsSticky(Step(r, events[0]), events[1..], id, reading);
    }
  }

  /** Two nested roots that register side by side. */
  lemma DottedRootsNest()
    ensures exists outer: Path, inner: Path, first: Probe, second: Probe ::
              && outer < inner
              && var r := After(EmptyRegistry, [DoRegister(first, Some("a")), DoRegister(second, Some("b"))]);
                 outer in r.byRoot && inner in r.byRoot
  {
    var outer, inner: Path := ["os"], ["os", "..b"];
    var a, b := Identity(outer, "d", "1", "t"), Identity(inner, "d", "2", "t");
    var first, second := Probe(Some(outer), Some(a), Some(outer), Some(a)), Probe(Some(inner), Some(b), Some(inner), Some(b));
    var r := Register(EmptyRegistry, first, Some("a")).reg;
    assert r.byRoot == map[outer := "a"];
    IsWithinExactly(inner, outer);
    IsWithinExactly(outer, inner);
    assert inner[1] == "..b" && ".." <= inner[1];
    assert OverlapIssue(r, inner, None) == None;
    var s := Register(r, second, Some("b")).reg;
    assert outer in s.byRoot && inner in s.byRoot;
    var events := [DoRegister(first, Some("a")), DoRegister(second, Some("b"))];
    assert events[1..] == [DoRegister(second, Some("b"))] && events[1..][1..] == [];
    assert Step(EmptyRegistry, events[0]) == r && Step(r, events[1..][0]) == s;
    assert After(s, []) == s;
    assert After(r, events[1..]) == s;
    assert After(EmptyRegistry, events) == s;
  }
}
