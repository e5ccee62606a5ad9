/** The disposable cache: string keys that must act like tuples, with expiry and
    invalidation by prefix. */
module ProjectionCache {
  import opened Wrappers
  import opened ScopeKeys

  type Value = string

  datatype Entry = Entry(value: Value, at: int, ttl: int)

  datatype Cache = Cache(entries: map<string, Entry>, hits: nat, misses: nat)

  /** What identifies one file projection. */
  datatype Projection = Projection(system: string, workspace: string, path: string, mtime: string, size: string)

  predicate WellFormed(p: Projection) {
    IsSystemId(p.system) && IsWorkspaceId(p.workspace) && NoColon(p.mtime) && NoColon(p.size)
  }

  function Parts(p: Projection): seq<string> {
    ["proj", p.workspace, p.path, p.mtime, p.size]
  }

  function Key(p: Projection): string {
    Join([p.system] + Parts(p))
  }

  // ---------- Operations ----------

  predicate Expired(entry: Entry, now: int) {
    now - entry.at > entry.ttl
  }

  function Set(c: Cache, system: string, parts: seq<string>, value: Value, ttl: int, now: int): Result<Cache, ()> {
    match ScopeKey(system, parts)
    case None => Failure(())
    case Some(key) => Success(c.(entries := c.entries[key := Entry(value, now, ttl)]))
  }

  datatype Lookup = Lookup(cache: Cache, value: Option<Value>)

  function GetKey(c: Cache, key: string, now: int): Lookup {
    if key !in c.entries then
      Lookup(c.(misses := c.misses + 1), None)
    else if Expired(c.entries[key], now) then
      Lookup(c.(entries := c.entries - {key}, misses := c.misses + 1), None)
    else
      Lookup(c.(hits := c.hits + 1), Some(c.entries[key].value))
  }

  function Get(c: Cache, system: string, parts: seq<string>, now: int): Result<Lookup, ()> {
    match ScopeKey(system, parts)
    case None => Failure(())
    case Some(key) => Success(GetKey(c, key, now))
  }

  predicate OfSystem(key: string, system: string) {
    key == system || system + ":" <= key
  }

  predicate OfWorkspace(key: string, system: string, workspace: string) {
    system + ":" + workspace + ":" <= key
  }

  function InvalidateSystem(c: Cache, system: string): Cache {
    c.(entries := map key | key in c.entries && !OfSystem(key, system) :: c.entries[key])
  }

  function InvalidateWorkspace(c: Cache, system: string, workspace: string): Cache {
    c.(entries := map key | key in c.entries && !OfWorkspace(key, system, workspace) :: c.entries[key])
  }

  // ---------- The cache as the object it is ----------

  class DisposableCache {
    var entries: map<string, Entry>
    var hits: nat
    var misses: nat

    ghost function Abs(): Cache
      reads this
    {
      Cache(entries, hits, misses)
    }

    constructor ()
      ensures Abs() == Cache(map[], 0, 0)
    {
      entries, hits, misses := map[], 0, 0;
    }

    method Put(system: string, parts: seq<string>, value: Value, ttl: int, now: int) returns (failed: bool)
      modifies this`entries
      ensures match Set(old(Abs()), system, parts, value, ttl, now)
              case Success(cache) => !failed && Abs() == cache
              case Failure(_) => failed && Abs() == old(Abs())
    {
      var key := ScopeKey(system, parts);
      failed := key.None?;
      if !failed {
        entries := entries[key.value := Entry(value, now, ttl)];
      }
    }

    method Fetch(system: string, parts: seq<string>, now: int) returns (value: Result<Option<Value>, ()>)
      modifies this
      ensures match Get(old(Abs()), system, parts, now)
              case Success(lookup) => value == Success(lookup.value) && Abs() == lookup.cache
              case Failure(_) => value.Failure? && Abs() == old(Abs())
    {
      var key := ScopeKey(system, parts);
      if key.None? {
        return Failure(());
      }
      if key.value !in entries {
        misses := misses + 1;
        return Success(None);
      }
      var entry := entries[key.value];
      if now - entry.at > entry.ttl {
        entries := entries - {key.value};
        misses := misses + 1;
        return Success(None);
      }
      hits := hits + 1;
      value := Success(Some(entry.value));
    }

    method DropSystem(system: string) returns (dropped: nat)
      modifies this`entries
      ensures Abs() == InvalidateSystem(old(Abs()), system)
      ensures dropped == |old(entries)| - |entries|
    {
      dropped := 0;
      var left := entries.Keys;
      while left != {}
        invariant left <= entries.Keys
        invariant entries.Keys <= old(entries).Keys
        invariant forall key :: key in entries ==> entries[key] == old(entries)[key]
        invariant forall key :: key in old(entries) && key !in entries ==> OfSystem(key, system)
        invariant forall key :: key in entries && key !in left ==> !OfSystem(key, system)
        invariant |entries| + dropped == |old(entries)|
        decreases |left|
      {
        var key :| key in left;
        left := left - {key};
        if OfSystem(key, system) {
          SmallerByOne(entries, key);
          entries := entries - {key};
          dropped := dropped + 1;
        }
      }
    }

    method DropWorkspace(system: string, workspace: string) returns (dropped: nat)
      modifies this`entries
      ensures Abs() == InvalidateWorkspace(old(Abs()), system, workspace)
      ensures dropped == |old(entries)| - |entries|
    {
      dropped := 0;
      var left := entries.Keys;
      while left != {}
        invariant left <= entries.Keys
        invariant entries.Keys <= old(entries).Keys
        invariant forall key :: key in entries ==> entries[key] == old(entries)[key]
        invariant forall key :: key in old(entries) && key !in entries ==> OfWorkspace(key, system, workspace)
        invariant forall key :: key in entries && key !in left ==> !OfWorkspace(key, system, workspace)
        invariant |entries| + dropped == |old(entries)|
        decreases |left|
      {
        var key :| key in left;
        left := left - {key};
        if OfWorkspace(key, system, workspace) {
          SmallerByOne(entries, key);
          entries := entries - {key};
          dropped := dropped + 1;
        }
      }
    }
  }

  lemma SmallerByOne<V>(m: map<string, V>, key: string)
    requires key in m
    ensures |m - {key}| == |m| - 1
  {
    assert (m - {key}).Keys == m.Keys - {key};
  }

  // ---------- Keys act like tuples ----------

  lemma KeyIdentifies(p: Projection, q: Projection)
    requires WellFormed(p) && WellFormed(q) && Key(p) == Key(q)
    ensures p == q
  {
    SlugHasNoColon(p.system);
    SlugHasNoColon(p.workspace);
    SlugHasNoColon(q.system);
    SlugHasNoColon(q.workspace);
    assert [p.system] + Parts(p) == [p.system, "proj", p.workspace] + [p.path] + [p.mtime, p.size];
    assert [q.system] + Parts(q) == [q.system, "proj", q.workspace] + [q.path] + [q.mtime, q.size];
    KeysAreTuples([p.system, "proj", p.workspace], p.path, [p.mtime, p.size],
                  [q.system, "proj", q.workspace], q.path, [q.mtime, q.size]);
    assert [p.system, "proj", p.workspace][2] == [q.system, "proj", q.workspace][2];
    assert [p.mtime, p.size][1] == [q.mtime, q.size][1];
  }

  lemma KeyStarts(p: Projection)
    ensures Key(p) == p.system + ":" + "proj" + ":" + Join([p.workspace, p.path, p.mtime, p.size])
  {
    var parts, rest := [p.system] + Parts(p), [p.workspace, p.path, p.mtime, p.size];
    assert parts[0] == p.system && parts[1..] == Parts(p);
    assert Parts(p)[0] == "proj" && Parts(p)[1..] == rest;
    assert Join(Parts(p)) == Parts(p)[0] + ":" + Join(Parts(p)[1..]);
    assert Join(parts) == parts[0] + ":" + Join(parts[1..]);
    assert p.system + ":" + ("proj" + ":" + Join(rest)) == p.system + ":" + "proj" + ":" + Join(rest);
  }

  /** Invalidating a system drops exactly its own projections. */
  lemma SystemDropsItsProjections(p: Projection, system: string)
    requires WellFormed(p) && IsSystemId(system)
    ensures OfSystem(Key(p), system) <==> p.system == system
  {
    SlugHasNoColon(p.system);
    SlugHasNoColon(system);
    KeyStarts(p);
    var key, rest := Key(p), "proj" + ":" + Join([p.workspace, p.path, p.mtime, p.size]);
    assert key == p.system + ":" + rest;
    FirstColonAfter(p.system, rest);
    if system + ":" <= key {
      assert key == system + ":" + key[|system| + 1..];
      FirstPart(p.system, rest, system, key[|system| + 1..]);
    } else if key == system {
      NoColonHasNone(system);
    }
  }

  lemma {:induction false} NoColonHasNone(s: string)
    requires NoColon(s)
    ensures FirstColon(s) == |s|
  {
    if s != "" {
      NoColonHasNone(s[1..]);
    }
  }

  /** Invalidating a workspace does not touch its projections: their second part
      is a constant. Only a workspace of that very name would drop any, and then
      those of every workspace of the system. */
  lemma WorkspaceDropsProjections(p: Projection, system: string, workspace: string)
    requires WellFormed(p) && IsSystemId(system) && IsWorkspaceId(workspace)
    ensures OfWorkspace(Key(p), system, workspace) <==> p.system == system && workspace == "proj"
  {
    SlugHasNoColon(p.system);
    SlugHasNoColon(system);
    SlugHasNoColon(workspace);
    KeyStarts(p);
    var key, last := Key(p), Join([p.workspace, p.path, p.mtime, p.size]);
    var rest := "proj" + ":" + last;
    var prefix := system + ":" + workspace + ":";
    assert key == p.system + ":" + rest;
    if p.system == system && workspace == "proj" {
      assert key == prefix + last;
    }
    if prefix <= key {
      var tail := key[|prefix|..];
      assert key == system + ":" + (workspace + ":" + tail);
      FirstPart(p.system, rest, system, workspace + ":" + tail);
      FirstPart("proj", last, workspace, tail);
    }
  }

  // ---------- Refinement of a cache keyed by tuples ----------

  datatype Event =
    | Put(p: Projection, value: Value, ttl: int, now: int)
    | Look(p: Projection, now: int)
    | DropSystem(system: string)
    | DropWorkspace(system: string, workspace: string)

  /** Identifiers are valid, and file sizes and times are numbers. */
  predicate Admissible(e: Event) {
    match e
    case Put(p, _, _, _) => WellFormed(p)
    case Look(p, _) => WellFormed(p)
    case DropSystem(system) => IsSystemId(system)
    case DropWorkspace(system, workspace) => IsSystemId(system) && IsWorkspaceId(workspace)
  }

  function Step(c: Cache, e: Event): Lookup {
    match e
    case Put(p, value, ttl, now) =>
      var put := Set(c, p.system, Parts(p), value, ttl, now);
      Lookup(if put.Success? then put.value else c, None)
    case Look(p, now) =>
      var look := Get(c, p.system, Parts(p), now);
      if look.Success? then look.value else Lookup(c, None)
    case DropSystem(system) => Lookup(InvalidateSystem(c, system), None)
    case DropWorkspace(system, workspace) => Lookup(InvalidateWorkspace(c, system, workspace), None)
  }

  function Results(c: Cache, events: seq<Event>): seq<Option<Value>>
    decreases |events|
  {
    if events == [] then []
    else [Step(c, events[0]).value] + Results(Step(c, events[0]).cache, events[1..])
  }

  type Table = map<Projection, Entry>

  datatype TableLookup = TableLookup(table: Table, value: Option<Value>)

  function Others(t: Table, system: string): Table {
    map p | p in t && p.system != system :: t[p]
  }

  /** The reference: a table of whole tuples, in which invalidating a workspace does
      nothing, unless it is named "proj". */
  function TableStep(t: Table, e: Event): TableLookup {
    match e
    case Put(p, value, ttl, now) => TableLookup(t[p := Entry(value, now, ttl)], None)
    case Look(p, now) =>
      if p !in t then TableLookup(t, None)
      else if Expired(t[p], now) then TableLookup(t - {p}, None)
      else TableLookup(t, Some(t[p].value))
    case DropSystem(system) => TableLookup(Others(t, system), None)
    case DropWorkspace(system, workspace) => TableLookup(if workspace == "proj" then Others(t, system) else t, None)
  }

  function TableResults(t: Table, events: seq<Event>): seq<Option<Value>>
    decreases |events|
  {
    if events == [] then []
    else [TableStep(t, events[0]).value] + TableResults(TableStep(t, events[0]).table, events[1..])
  }

  ghost predicate Represents(entries: map<string, Entry>, t: Table) {
    && (forall p :: p in t ==> WellFormed(p) && Key(p) in entries && entries[Key(p)] == t[p])
    && (forall p :: WellFormed(p) && Key(p) in entries ==> p in t)
  }

  lemma StepRefines(c: Cache, t: Table, e: Event)
    requires Represents(c.entries, t) && Admissible(e)
    ensures Step(c, e).value == TableStep(t, e).value
    ensures Represents(Step(c, e).cache.entries, TableStep(t, e).table)
  {
    hide Key, IsSystemId, IsWorkspaceId, OfSystem, OfWorkspace;
    match e {
      case Put(p, value, ttl, now) =>
        KeyOfParts(p);
        forall q | WellFormed(q) && Key(q) == Key(p)
          ensures q == p
        {
          KeyIdentifies(p, q);
        }
      case Look(p, now) =>
        KeyOfParts(p);
        forall q | WellFormed(q) && Key(q) == Key(p)
          ensures q == p
        {
          KeyIdentifies(p, q);
        }
      case DropSystem(system) =>
        forall q | WellFormed(q)
          ensures OfSystem(Key(q), system) <==> q.system == system
        {
          SystemDropsItsProjections(q, system);
        }
      case DropWorkspace(system, workspace) =>
        forall q | WellFormed(q)
          ensures OfWorkspace(Key(q), system, workspace) <==> q.system == system && workspace == "proj"
        {
          WorkspaceDropsProjections(q, system, workspace);
        }
    }
  }

  /** Over every run, each lookup answers as if the keys were whole tuples: only
      what was last put for that system, workspace, path, time and size, while it
      is young enough and its system has not been invalidated. */
  lemma {:induction false} CacheRefinesTable(c: Cache, t: Table, events: seq<Event>)
    requires Represents(c.entries, t) && forall i :: 0 <= i < |events| ==> Admissible(events[i])
    ensures Results(c, events) == TableResults(t, events)
    decreases |events|
  {
    hide Represents, Admissible, Step, TableStep;
    if events != [] {
      StepRefines(c, t, events[0]);
      CacheRefinesTable(Step(c, events[0]).cache, TableStep(t, events[0]).table, events[1..]);
    }
  }

  // ---------- What every run has put and looked up ----------

  function Run(events: seq<Event>): Cache {
    if events == [] then Cache(map[], 0, 0)
    else Step(Run(events[..|events| - 1]), events[|events| - 1]).cache
  }

  /** The event ends an entry that was put for the projection: it puts another, drops
      the system or a workspace of it named "proj", or is a lookup that finds the entry
      too old. */
  predicate Ends(e: Event, p: Projection, ttl: int, at: int) {
    match e
    case Put(q, _, _, _) => q == p
    case Look(q, now) => q == p && now - at > ttl
    case DropSystem(system) => system == p.system
    case DropWorkspace(system, workspace) => system == p.system && workspace == "proj"
  }

  ghost predicate PutLast(events: seq<Event>, j: nat, p: Projection, entry: Entry) {
    && j < |events| && events[j] == Put(p, entry.value, entry.ttl, entry.at)
    && forall m :: j < m < |events| ==> !Ends(events[m], p, entry.ttl, entry.at)
  }

  ghost predicate AllAdmissible(events: seq<Event>) {
    forall i :: 0 <= i < |events| ==> Admissible(events[i])
  }

  ghost predicate Holds(c: Cache, p: Projection, entry: Entry) {
    Key(p) in c.entries && c.entries[Key(p)] == entry
  }

  lemma StepHolds(c: Cache, e: Event, p: Projection, entry: Entry)
    requires WellFormed(p) && Admissible(e)
    ensures Holds(Step(c, e).cache, p, entry)
            <==> || e == Put(p, entry.value, entry.ttl, entry.at)
                 || (Holds(c, p, entry) && !Ends(e, p, entry.ttl, entry.at))
  {
    hide Key, IsSystemId, IsWorkspaceId, OfSystem, OfWorkspace;
    match e {
      case Put(q, _, _, _) =>
        KeyOfParts(q);
        if Key(q) == Key(p) {
          KeyIdentifies(p, q);
        }
      case Look(q, _) =>
        KeyOfParts(q);
        if Key(q) == Key(p) {
          KeyIdentifies(p, q);
        }
      case DropSystem(system) => SystemDropsItsProjections(p, system);
      case DropWorkspace(system, workspace) => WorkspaceDropsProjections(p, system, workspace);
    }
  }

  lemma KeyOfParts(p: Projection)
    requires WellFormed(p)
    ensures ScopeKey(p.system, Parts(p)) == Some(Key(p))
  {
  }

  lemma PutLastNext(events: seq<Event>, e: Event, j: nat, p: Projection, entry: Entry)
    ensures PutLast(events + [e], j, p, entry)
            <==> if j == |events| then e == Put(p, entry.value, entry.ttl, entry.at)
                 else PutLast(events, j, p, entry) && !Ends(e, p, entry.ttl, entry.at)
  {
    hide Ends;
    var all := events + [e];
    if j < |events| && PutLast(all, j, p, entry) {
      assert all[|events|] == e;
      forall m | j < m < |events|
        ensures !Ends(events[m], p, entry.ttl, entry.at)
      {
        assert all[m] == events[m];
      }
    }
  }

  /** In every run the cache holds an entry for a projection exactly if some event put
      it last and nothing ended it since. */
  lemma {:induction false} CacheHoldsLastPut(events: seq<Event>, p: Projection, entry: Entry)
    requires WellFormed(p) && AllAdmissible(events)
    ensures Holds(Run(events), p, entry) <==> exists j: nat :: PutLast(events, j, p, entry)
    decreases |events|
  {
    hide Step, Ends, Holds, WellFormed, Admissible, PutLast;
    if events == [] {
      NothingIsHeld(p, entry);
    } else {
      var before, e := events[..|events| - 1], events[|events| - 1];
      assert events == before + [e];
      CacheHoldsLastPut(before, p, entry);
      StepHolds(Run(before), e, p, entry);
      PutLastNext(before, e, |before|, p, entry);
      if exists j: nat :: PutLast(before, j, p, entry) {
        var j: nat :| PutLast(before, j, p, entry);
        PutLastIsEarlier(before, j, p, entry);
        PutLastNext(before, e, j, p, entry);
      }
      if exists j: nat :: PutLast(events, j, p, entry) {
        var j: nat :| PutLast(events, j, p, entry);
        PutLastNext(before, e, j, p, entry);
      }
    }
  }

  lemma PutLastIsEarlier(events: seq<Event>, j: nat, p: Projection, entry: Entry)
    requires PutLast(events, j, p, entry)
    ensures j < |events|
  {
  }

  lemma NothingIsHeld(p: Projection, entry: Entry)
    ensures !Holds(Run([]), p, entry)
    ensures forall j: nat :: !PutLast([], j, p, entry)
  {
  }

  /** In every run a lookup answers exactly with the value last put for that very
      system, workspace, path, time and size, while no more than its lifetime has
      passed, neither its system nor a workspace "proj" of it was dropped and no lookup
      found it too old. */
  lemma LookupsExactly(events: seq<Event>, p: Projection, now: int, value: Value)
    requires WellFormed(p) && AllAdmissible(events)
    ensures Step(Run(events), Look(p, now)).value == Some(value)
            <==> exists j: nat, ttl: int, at: int ::
                   && j < |events| && events[j] == Put(p, value, ttl, at) && now - at <= ttl
                   && forall m :: j < m < |events| ==>
                        match events[m]
                        case Put(q, _, _, _) => q != p
                        case Look(q, time) => q != p || time - at <= ttl
                        case DropSystem(system) => system != p.system
                        case DropWorkspace(system, workspace) => system != p.system || workspace != "proj"
  {
    hide Run, Key, WellFormed, Admissible;
    var c := Run(events);
    LookAnswers(c, p, now);
    if Step(c, Look(p, now)).value == Some(value) {
      var entry := c.entries[Key(p)];
      CacheHoldsLastPut(events, p, entry);
      var j: nat :| PutLast(events, j, p, entry);
      assert events[j] == Put(p, value, entry.ttl, entry.at);
    }
    forall j: nat, ttl: int, at: int | PutLast(events, j, p, Entry(value, at, ttl)) && now - at <= ttl
      ensures Step(c, Look(p, now)).value == Some(value)
    {
      CacheHoldsLastPut(events, p, Entry(value, at, ttl));
    }
    if j: nat, ttl: int, at: int :|
         && j < |events| && events[j] == Put(p, value, ttl, at) && now - at <= ttl
         && forall m :: j < m < |events| ==> !Ends(events[m], p, ttl, at)
    {
      assert PutLast(events, j, p, Entry(value, at, ttl));
    }
  }

  lemma LookAnswers(c: Cache, p: Projection, now: int)
    requires WellFormed(p)
    ensures Step(c, Look(p, now)).value
            == if Key(p) in c.entries && now - c.entries[Key(p)].at <= c.entries[Key(p)].ttl
               then Some(c.entries[Key(p)].value) else None
  {
    KeyOfParts(p);
  }

  function Looks(events: seq<Event>): set<nat> {
    set k: nat | k < |events| && events[k].Look?
  }

  function Answered(events: seq<Event>): set<nat> {
    set k: nat | k < |events| && Step(Run(events[..k]), events[k]).value.Some?
  }

  /** In every run hits counts the lookups that were answered and misses the others. */
  lemma {:induction false} CountersAreExact(events: seq<Event>)
    requires AllAdmissible(events)
    ensures Run(events).hits == |Answered(events)|
    ensures Run(events).hits + Run(events).misses == |Looks(events)|
    decreases |events|
  {
    hide Step, Admissible, Looks, Answered;
    if events == [] {
      NothingIsCounted();
    } else {
      var before, e := events[..|events| - 1], events[|events| - 1];
      assert events == before + [e];
      CountersAreExact(before);
      StepCounts(Run(before), e);
      LooksGrow(before, e);
      AnsweredGrow(before, e);
    }
  }

  lemma NothingIsCounted()
    ensures Looks([]) == {} && Answered([]) == {}
  {
  }

  lemma LooksGrow(events: seq<Event>, e: Event)
    ensures |Looks(events + [e])| == |Looks(events)| + if e.Look? then 1 else 0
  {
    var n := |events|;
    assert Looks(events + [e]) == Looks(events) + if e.Look? then {n} else {};
    assert n !in Looks(events);
  }

  lemma AnsweredGrow(events: seq<Event>, e: Event)
    ensures |Answered(events + [e])| == |Answered(events)| + if Step(Run(events), e).value.Some? then 1 else 0
  {
    hide Step, Run;
    var n := |events|;
    assert forall k: nat :: k <= n ==> (events + [e])[..k] == events[..k];
    assert events[..n] == events;
    assert Answered(events + [e]) == Answered(events) + if Step(Run(events), e).value.Some? then {n} else {};
    assert n !in Answered(events);
  }

  lemma StepCounts(c: Cache, e: Event)
    requires Admissible(e)
    ensures var r := Step(c, e);
            && (e.Look? ==> if r.value.Some? then r.cache.hits == c.hits + 1 && r.cache.misses == c.misses
                            else r.cache.hits == c.hits && r.cache.misses == c.misses + 1)
            && (!e.Look? ==> r.value.None? && r.cache.hits == c.hits && r.cache.misses == c.misses)
  {
    hide Key, OfSystem, OfWorkspace, IsWorkspaceId;
    if e.Look? {
      KeyOfParts(e.p);
    }
  }

  /** Invalidating a system drops exactly the keys made for it, projections or not. */
  lemma SystemDropsItsKeys(other: string, parts: seq<string>, system: string)
    requires IsSystemId(other) && IsSystemId(system)
    ensures OfSystem(Join([other] + parts), system) <==> other == system
  {
    SlugHasNoColon(other);
    SlugHasNoColon(system);
    KeyBegins(other, parts);
    NoColonHasNone(system);
    NoColonHasNone(other);
    var key := Join([other] + parts);
    if parts != [] {
      var rest := Join(parts);
      FirstColonAfter(other, rest);
      if system + ":" <= key {
        assert key == system + ":" + key[|system| + 1..];
        FirstPart(other, rest, system, key[|system| + 1..]);
      }
    } else {
      PrefixHasColon(system, other);
    }
  }

  lemma PrefixHasColon(prefix: string, s: string)
    ensures prefix + ":" <= s ==> |prefix| < |s| && s[|prefix|] == ':'
  {
    assert (prefix + ":")[|prefix|] == ':';
  }

  lemma KeyBegins(first: string, parts: seq<string>)
    ensures Join([first] + parts) == if parts == [] then first else first + ":" + Join(parts)
  {
    assert ([first] + parts)[1..] == parts;
  }

  /** Invalidating a workspace drops exactly the keys made for it, if the part that
      follows the system has no colon: those of the system with that workspace in
      second place and at least one more part. */
  lemma WorkspaceDropsItsKeys(other: string, second: string, parts: seq<string>, system: string, workspace: string)
    requires IsSystemId(other) && NoColon(second) && IsSystemId(system) && IsWorkspaceId(workspace)
    ensures OfWorkspace(Join([other, second] + parts), system, workspace)
            <==> other == system && second == workspace && parts != []
  {
    SlugHasNoColon(other);
    SlugHasNoColon(system);
    SlugHasNoColon(workspace);
    var key, rest := Join([other, second] + parts), Join([second] + parts);
    assert [other, second] + parts == [other] + ([second] + parts);
    KeyBegins(other, [second] + parts);
    KeyBegins(second, parts);
    assert key == other + ":" + rest;
    var prefix := system + ":" + workspace + ":";
    if prefix <= key {
      var tail := key[|prefix|..];
      assert key == system + ":" + (workspace + ":" + tail);
      FirstPart(other, rest, system, workspace + ":" + tail);
      if parts == [] {
        PrefixHasColon(workspace, second);
        assert false;
      } else {
        FirstPart(second, Join(parts), workspace, tail);
      }
    }
    if other == system && second == workspace && parts != [] {
      assert key == prefix + Join(parts);
    }
  }
}
