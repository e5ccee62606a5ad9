/** The projection of one run's event stream to a socket: allowed kinds only,
    numbered, each under a lease that is checked through the registry as it is
    sent. */
module RunEventStream {
  import opened Wrappers
  import opened OwnerRegistry
  import Reg = OwnerRegistry
  import RegistryObject

  datatype Kind = Delta | Progress | TerminalKind | Unlisted

  /** What was captured when the stream was opened. */
  datatype Lease = Lease(system: SystemId, root: Path, generation: nat)

  /** An upstream event, with the two readings that its lease check gets if there
      is one. */
  datatype Upstream = Upstream(kind: Kind, id: string, first: Option<Identity>, second: Option<Identity>)

  datatype Projection = Projection(seqNo: nat, kind: Kind, id: string)

  datatype Stream = Stream(finished: bool, sequence: nat, sent: seq<Projection>)

  const NewStream := Stream(false, 0, [])

  function CheckOf(r: Registry, lease: Lease, e: Upstream): Check {
    CheckLease(r, lease.system, lease.root, lease.generation, e.first, e.second)
  }

  datatype Received = Received(reg: Registry, stream: Stream)

  function Receive(r: Registry, lease: Lease, s: Stream, e: Upstream): Received {
    if s.finished || e.kind == Unlisted then
      Received(r, s)
    else
      var check := CheckOf(r, lease, e);
      if check.passes
      then Received(check.reg, Stream(e.kind == TerminalKind, s.sequence + 1, s.sent + [Projection(s.sequence + 1, e.kind, e.id)]))
      else Received(check.reg, s.(finished := true))
  }

  // ---------- Among the operations of the registry ----------

  /** What was checked when a projection was sent, and the length of the registry's
      history at that moment. */
  datatype Checked = Checked(at: nat, event: Upstream)

  datatype World = World(registry: Registry, history: seq<Reg.Event>, stream: Stream, checks: seq<Checked>)

  datatype Event =
    | Owner(change: Reg.Event)
    | Arrives(event: Upstream)
    | Cancelled

  function Start(registry: Registry): World {
    World(registry, [], NewStream, [])
  }

  /** The resolutions that the check of an event performs. */
  function Looks(w: World, lease: Lease, e: Upstream): seq<Reg.Event> {
    var first, second := DoResolve(lease.system, e.first), DoResolve(lease.system, e.second);
    if w.stream.finished || e.kind == Unlisted then []
    else if ResolveRoot(w.registry, lease.system, e.first).result != Success(lease.root) then [first]
    else [first, second]
  }

  function Step(w: World, lease: Lease, e: Event): World {
    match e
    case Owner(change) => w.(registry := Reg.Step(w.registry, change), history := w.history + [change])
    case Cancelled => w.(stream := w.stream.(finished := true))
    case Arrives(event) =>
      var received := Receive(w.registry, lease, w.stream, event);
      World(received.reg, w.history + Looks(w, lease, event), received.stream,
            if |received.stream.sent| > |w.stream.sent|
            then w.checks + [Checked(|w.history|, event)] else w.checks)
  }

  function Play(w: World, lease: Lease, events: seq<Event>): World
    decreases |events|
  {
    if events == [] then w else Play(Step(w, lease, events[0]), lease, events[1..])
  }

  /** What ends a stream that was live until then. */
  predicate Ends(w: World, lease: Lease, e: Event) {
    match e
    case Owner(_) => false
    case Cancelled => true
    case Arrives(event) =>
      event.kind != Unlisted && (event.kind == TerminalKind || !CheckOf(w.registry, lease, event).passes)
  }

  ghost predicate EndsAt(w: World, lease: Lease, events: seq<Event>, j: nat) {
    j < |events| && Ends(Play(w, lease, events[..j]), lease, events[j])
  }

  lemma EndsLater(w: World, lease: Lease, events: seq<Event>, j: nat)
    requires events != []
    ensures EndsAt(Step(w, lease, events[0]), lease, events[1..], j) <==> EndsAt(w, lease, events, j + 1)
  {
    hide Step, Ends;
    if j + 1 < |events| {
      assert events[..j + 1][0] == events[0] && events[..j + 1][1..] == events[1..][..j];
    }
  }

  lemma FinishedStays(w: World, lease: Lease, e: Event)
    ensures Step(w, lease, e).stream.finished <==> w.stream.finished || Ends(w, lease, e)
  {
    hide CheckLease;
  }

  /** A stream has finished exactly when an event ended it. */
  lemma {:induction false} FinishedExactly(w: World, lease: Lease, events: seq<Event>)
    ensures Play(w, lease, events).stream.finished
            <==> w.stream.finished || exists j: nat :: EndsAt(w, lease, events, j)
    decreases |events|
  {
    hide Step, Ends;
    if events != [] {
      var v := Step(w, lease, events[0]);
      FinishedStays(w, lease, events[0]);
      FinishedExactly(v, lease, events[1..]);
      assert events[..0] == [] && Play(w, lease, []) == w;
      assert EndsAt(w, lease, events, 0) <==> Ends(w, lease, events[0]);
      if exists j: nat :: EndsAt(v, lease, events[1..], j) {
        var j: nat :| EndsAt(v, lease, events[1..], j);
        EndsLater(w, lease, events, j);
      }
      if exists j: nat :: EndsAt(w, lease, events, j) {
        var j: nat :| EndsAt(w, lease, events, j);
        if j > 0 {
          EndsLater(w, lease, events, j - 1);
        }
      }
    }
  }

  // ---------- What every step keeps ----------

  ghost predicate CheckedOk(start: Registry, lease: Lease, w: World, k: nat)
    requires k < |w.checks|
  {
    && w.checks[k].at <= |w.history|
    && CheckOf(After(start, w.history[..w.checks[k].at]), lease, w.checks[k].event).passes
  }

  ghost predicate SentOk(w: World, k: nat)
    requires k < |w.stream.sent| == |w.checks|
  {
    w.stream.sent[k] == Projection(k + 1, w.checks[k].event.kind, w.checks[k].event.id)
    && w.checks[k].event.kind != Unlisted
  }

  ghost predicate StreamInv(start: Registry, lease: Lease, w: World) {
    && w.registry == After(start, w.history)
    && w.stream.sequence == |w.stream.sent| == |w.checks|
    && forall k: nat :: k < |w.checks| ==> CheckedOk(start, lease, w, k) && SentOk(w, k)
  }

  lemma LooksFollow(w: World, lease: Lease, e: Upstream)
    ensures After(w.registry, Looks(w, lease, e)) == Receive(w.registry, lease, w.stream, e).reg
  {
    var first, second := DoResolve(lease.system, e.first), DoResolve(lease.system, e.second);
    var r := ResolveRoot(w.registry, lease.system, e.first).reg;
    assert [first, second][1..] == [second] && [first][1..] == [] && [second][1..] == [];
    assert After(r, []) == r && After(w.registry, [first]) == r;
    assert After(r, [second]) == After(Reg.Step(r, second), []);
  }

  lemma StepKeepsInv(start: Registry, lease: Lease, w: World, e: Event)
    requires StreamInv(start, lease, w)
    ensures StreamInv(start, lease, Step(w, lease, e))
  {
    hide After, CheckLease, Reg.Step;
    var v := Step(w, lease, e);
    match e {
      case Owner(change) =>
        AfterAppend(start, w.history, [change]);
        OneStep(w.registry, change);
      case Arrives(event) =>
        AfterAppend(start, w.history, Looks(w, lease, event));
        LooksFollow(w, lease, event);
      case Cancelled =>
    }
    forall k: nat | k < |v.checks|
      ensures CheckedOk(start, lease, v, k) && SentOk(v, k)
    {
      if k < |w.checks| {
        assert CheckedOk(start, lease, w, k) && SentOk(w, k);
        assert v.history[..w.checks[k].at] == w.history[..w.checks[k].at];
      } else {
        assert v.history[..|w.history|] == w.history;
      }
    }
  }

  lemma OneStep(r: Registry, change: Reg.Event)
    ensures After(r, [change]) == Reg.Step(r, change)
  {
    assert [change][1..] == [];
  }

  lemma {:induction false} PlayKeepsInv(start: Registry, lease: Lease, w: World, events: seq<Event>)
    requires StreamInv(start, lease, w)
    ensures StreamInv(start, lease, Play(w, lease, events))
    decreases |events|
  {
    hide StreamInv, Step;
    if events != [] {
      StepKeepsInv(start, lease, w, events[0]);
      PlayKeepsInv(start, lease, Step(w, lease, events[0]), events[1..]);
    }
  }

  lemma EveryRunKeepsInv(registry: Registry, lease: Lease, events: seq<Event>)
    ensures StreamInv(registry, lease, Play(Start(registry), lease, events))
  {
    hide Play;
    assert After(registry, []) == registry;
    PlayKeepsInv(registry, lease, Start(registry), events);
  }

  // ---------- Theorems over every interleaving with the registry ----------

  /** An event is projected exactly when its kind is listed, the registry still
      holds the lease as it arrives, and nothing before it ended the stream; it then
      gets the next number. */
  lemma EventIsProjectedExactly(registry: Registry, lease: Lease, events: seq<Event>, e: Upstream)
    ensures var w := Play(Start(registry), lease, events);
            var before, later := w.stream.sent, Step(w, lease, Arrives(e)).stream.sent;
            if && e.kind != Unlisted && CheckOf(w.registry, lease, e).passes
               && forall j: nat :: !EndsAt(Start(registry), lease, events, j)
            then later == before + [Projection(|before| + 1, e.kind, e.id)]
            else later == before
  {
    hide Play, CheckLease, EndsAt;
    EveryRunKeepsInv(registry, lease, events);
    FinishedExactly(Start(registry), lease, events);
  }

  /** Projections run 1, 2, 3, and each is sent in a registry state where root and
      generation are exactly the captured ones and the approved directory is shown. */
  lemma ProjectionsKeepTheirLease(registry: Registry, lease: Lease, events: seq<Event>, k: nat)
    requires k < |Play(Start(registry), lease, events).stream.sent|
    ensures var w := Play(Start(registry), lease, events);
            && w.registry == After(registry, w.history)
            && w.stream.sent[k].seqNo == k + 1 && w.stream.sent[k].kind != Unlisted
            && k < |w.checks| && w.checks[k].at <= |w.history|
            && var r, id := After(registry, w.history[..w.checks[k].at]), lease.system;
               && id in r.byId && r.byId[id].authorized
               && r.byId[id].root == lease.root && GenerationOf(r, id) == lease.generation
               && w.checks[k].event.first == w.checks[k].event.second == Some(r.byId[id].identity)
  {
    hide Play, After;
    var w := Play(Start(registry), lease, events);
    EveryRunKeepsInv(registry, lease, events);
    assert CheckedOk(registry, lease, w, k) && SentOk(w, k);
    var e := w.checks[k].event;
    PassingLeaseAgrees(After(registry, w.history[..w.checks[k].at]), lease.system, lease.root, lease.generation, e.first, e.second);
  }

  /** If the lease has the system's positive generation at first, then no
      projection is sent after the binding was renewed, and unless the generations
      ran out, the directory shown is the one approved at first. */
  lemma ProjectionsAreUndisturbed(registry: Registry, lease: Lease, events: seq<Event>, k: nat)
    requires RegInv(registry) && lease.generation == GenerationOf(registry, lease.system) > 0
    requires k < |Play(Start(registry), lease, events).stream.sent|
    ensures var w := Play(Start(registry), lease, events);
            && k < |w.checks| && w.checks[k].at <= |w.history|
            && var before := w.history[..w.checks[k].at];
               && Undisturbed(registry, before, lease.system)
               && lease.system in registry.byId
               && (After(registry, before).serial < MAX_SAFE_INTEGER ==>
                     w.checks[k].event.first == Some(registry.byId[lease.system].identity))
  {
    hide Play, After, Undisturbed, CheckLease;
    var w := Play(Start(registry), lease, events);
    EveryRunKeepsInv(registry, lease, events);
    assert CheckedOk(registry, lease, w, k);
    var e, before := w.checks[k].event, w.history[..w.checks[k].at];
    PassingLeaseIsUndisturbed(registry, before, lease.system, lease.root, e.first, e.second);
    if After(registry, before).serial < MAX_SAFE_INTEGER {
      PassingLeaseKeepsIdentity(registry, before, lease.system, lease.root, e.first, e.second);
    }
  }

  // ---------- The stream as the variables it captures ----------

  class GatewayEventStream {
    const registry: RegistryObject.SystemRegistry
    const lease: Lease
    var finished: bool
    var sequence: nat
    var sent: seq<Projection>

    ghost function Abs(): Stream
      reads this
    {
      Stream(finished, sequence, sent)
    }

    constructor (registry: RegistryObject.SystemRegistry, lease: Lease)
      ensures this.registry == registry && this.lease == lease && Abs() == NewStream
    {
      this.registry, this.lease := registry, lease;
      finished, sequence, sent := false, 0, [];
    }

    method Cancel()
      modifies this`finished
      ensures Abs() == old(Abs()).(finished := true)
    {
      finished := true;
    }

    /** The callback of one upstream event: it checks the lease through the registry
        object, which may thereby mark a drift. */
    method OnEvent(e: Upstream)
      modifies this`finished, this`sequence, this`sent, registry`byId
      ensures Received(registry.Abs(), Abs()) == Receive(old(registry.Abs()), lease, old(Abs()), e)
    {
      if finished || e.kind == Unlisted {
        return;
      }
      var holds := registry.HoldsLease(lease.system, lease.root, lease.generation, e.first, e.second);
      if !holds {
        Cancel();
        return;
      }
      sequence := sequence + 1;
      sent := sent + [Projection(sequence, e.kind, e.id)];
      if e.kind == TerminalKind {
        Cancel();
      }
    }
  }
}
