/** The subscription hub: subscribers, sequence numbers and a dedupe window, all
    partitioned by system. The digest of a payload is an opaque part of the key. */
module EventHub {
  import opened Wrappers
  import opened ScopeKeys

  const DEDUPE_WINDOW_MS: int := 1000

  datatype HubEvent = HubEvent(event: string, system: string, workspace: Option<string>, digest: string)

  datatype Sub = Sub(id: nat, system: string, workspace: Option<string>)

  datatype Delivery = Delivery(sub: Sub, event: HubEvent, seqNo: nat, at: int)

  datatype Hub = Hub(subs: seq<Sub>, counter: nat, seqBySystem: map<string, nat>, seen: map<string, int>)

  const EmptyHub := Hub([], 0, map[], map[])

  // ---------- Operations ----------

  function Subscribe(h: Hub, system: string, workspace: Option<string>): Hub {
    h.(counter := h.counter + 1, subs := h.subs + [Sub(h.counter + 1, system, workspace)])
  }

  function Without(subs: seq<Sub>, id: nat): seq<Sub> {
    if subs == [] then []
    else (if subs[0].id == id then [] else [subs[0]]) + Without(subs[1..], id)
  }

  function Unsubscribe(h: Hub, id: nat): Hub {
    h.(subs := Without(h.subs, id))
  }

  /** The dedupe key; without a workspace, or with a malformed id, there is none
      and publishing throws. */
  function EventKey(e: HubEvent): Option<string> {
    WorkspaceScopeKey(e.system, e.workspace.GetOr("-"), [e.event, e.digest])
  }

  predicate Wants(sub: Sub, e: HubEvent) {
    sub.system == e.system && (sub.workspace.None? || sub.workspace == e.workspace)
  }

  function Fanout(subs: seq<Sub>, e: HubEvent, seqNo: nat, at: int): seq<Delivery> {
    if subs == [] then []
    else (if Wants(subs[0], e) then [Delivery(subs[0], e, seqNo, at)] else []) + Fanout(subs[1..], e, seqNo, at)
  }

  function LastSeq(h: Hub, system: string): nat {
    if system in h.seqBySystem then h.seqBySystem[system] else 0
  }

  datatype Outcome = Thrown | Suppressed | Published(seqNo: nat, deliveries: seq<Delivery>)

  datatype Out = Out(hub: Hub, outcome: Outcome)

  function Publish(h: Hub, e: HubEvent, now: int): Out {
    match EventKey(e)
    case None => Out(h, Thrown)
    case Some(key) =>
      if key in h.seen && now - h.seen[key] < DEDUPE_WINDOW_MS then
        Out(h, Suppressed)
      else
        var seqNo := LastSeq(h, e.system) + 1;
        Out(h.(seen := h.seen[key := now], seqBySystem := h.seqBySystem[e.system := seqNo]),
            Published(seqNo, Fanout(h.subs, e, seqNo, now)))
  }

  // ---------- Runs ----------

  datatype Step =
    | DoSubscribe(system: string, workspace: Option<string>)
    | DoUnsubscribe(id: nat)
    | DoPublish(event: HubEvent, now: int)

  function Next(h: Hub, s: Step): Hub {
    match s
    case DoSubscribe(system, workspace) => Subscribe(h, system, workspace)
    case DoUnsubscribe(id) => Unsubscribe(h, id)
    case DoPublish(event, now) => Publish(h, event, now).hub
  }

  predicate Publishes(h: Hub, s: Step) {
    s.DoPublish? && Publish(h, s.event, s.now).outcome.Published?
  }

  function Delivered(h: Hub, s: Step): seq<Delivery> {
    if Publishes(h, s) then Publish(h, s.event, s.now).outcome.deliveries else []
  }

  function ToSystem(ds: seq<Delivery>, system: string): seq<Delivery> {
    if ds == [] then []
    else (if ds[0].sub.system == system then [ds[0]] else []) + ToSystem(ds[1..], system)
  }

  /** What the subscribers of a system receive over a run. */
  function Received(h: Hub, steps: seq<Step>, system: string): seq<Delivery>
    decreases |steps|
  {
    if steps == [] then []
    else ToSystem(Delivered(h, steps[0]), system) + Received(Next(h, steps[0]), steps[1..], system)
  }

  predicate Foreign(s: Step, system: string) {
    s.DoPublish? && s.event.system != system
  }

  /** The run without the publishes of other systems. */
  function Alone(steps: seq<Step>, system: string): seq<Step> {
    if steps == [] then []
    else (if Foreign(steps[0], system) then [] else [steps[0]]) + Alone(steps[1..], system)
  }

  // ---------- Non-interference ----------

  lemma KeyNamesItsEvent(e: HubEvent, f: HubEvent)
    requires EventKey(e).Some? && EventKey(e) == EventKey(f) && NoColon(e.digest) && NoColon(f.digest)
    ensures e == f
  {
    SlugHasNoColon(e.system);
    SlugHasNoColon(f.system);
    var w, v := e.workspace.GetOr("-"), f.workspace.GetOr("-");
    SlugHasNoColon(w);
    SlugHasNoColon(v);
    assert [e.system, w] + [e.event, e.digest] == [e.system, w] + [e.event] + [e.digest];
    assert [f.system, v] + [f.event, f.digest] == [f.system, v] + [f.event] + [f.digest];
    KeysAreTuples([e.system, w], e.event, [e.digest], [f.system, v], f.event, [f.digest]);
    assert [e.system, w][1] == [f.system, v][1] && [e.digest][0] == [f.digest][0];
  }

  lemma KeyNamesItsSystem(e: HubEvent, f: HubEvent)
    requires EventKey(e).Some? && EventKey(e) == EventKey(f)
    ensures e.system == f.system
  {
    SlugHasNoColon(e.system);
    SlugHasNoColon(f.system);
    var a, b := [e.system, e.workspace.GetOr("-")] + [e.event, e.digest], [f.system, f.workspace.GetOr("-")] + [f.event, f.digest];
    FirstPart(e.system, Join(a[1..]), f.system, Join(b[1..]));
  }

  lemma {:induction false} FanoutStaysInSystem(subs: seq<Sub>, e: HubEvent, seqNo: nat, at: int, system: string)
    ensures ToSystem(Fanout(subs, e, seqNo, at), system) == if e.system == system then Fanout(subs, e, seqNo, at) else []
  {
    if subs != [] {
      FanoutStaysInSystem(subs[1..], e, seqNo, at, system);
      var rest := Fanout(subs[1..], e, seqNo, at);
      if Wants(subs[0], e) {
        assert ([Delivery(subs[0], e, seqNo, at)] + rest)[1..] == rest;
      } else {
        assert [] + rest == rest;
      }
    }
  }

  /** Two hubs that look alike to one system. */
  ghost predicate Alike(h: Hub, g: Hub, system: string) {
    && h.subs == g.subs && h.counter == g.counter && LastSeq(h, system) == LastSeq(g, system)
    && forall e: HubEvent :: SameMemory(h, g, e, system)
  }

  ghost predicate SameMemory(h: Hub, g: Hub, e: HubEvent, system: string) {
    e.system == system && EventKey(e).Some? ==>
      var key := EventKey(e).value;
      (key in h.seen <==> key in g.seen) && (key in h.seen ==> h.seen[key] == g.seen[key])
  }

  lemma ForeignPublishIsUnseen(h: Hub, g: Hub, s: Step, system: string)
    requires Alike(h, g, system) && Foreign(s, system)
    ensures Alike(Next(h, s), g, system) && ToSystem(Delivered(h, s), system) == []
  {
    hide EventKey, Fanout;
    forall e: HubEvent
      ensures SameMemory(Next(h, s), g, e, system)
    {
      assert SameMemory(h, g, e, system);
      if e.system == system && EventKey(e).Some? && EventKey(e) == EventKey(s.event) {
        KeyNamesItsSystem(e, s.event);
      }
    }
    FanoutStaysInSystem(h.subs, s.event, LastSeq(h, s.event.system) + 1, s.now, system);
  }

  lemma OwnStepIsShared(h: Hub, g: Hub, s: Step, system: string)
    requires Alike(h, g, system) && !Foreign(s, system)
    ensures Alike(Next(h, s), Next(g, s), system) && Delivered(h, s) == Delivered(g, s)
  {
    hide EventKey, Fanout, Without;
    if s.DoPublish? {
      assert SameMemory(h, g, s.event, system);
    }
    forall e: HubEvent
      ensures SameMemory(Next(h, s), Next(g, s), e, system)
    {
      assert SameMemory(h, g, e, system);
    }
  }

  lemma {:induction false} AlikeHubsReceiveAlike(h: Hub, g: Hub, steps: seq<Step>, system: string)
    requires Alike(h, g, system)
    ensures Received(h, steps, system) == Received(g, Alone(steps, system), system)
    decreases |steps|
  {
    hide Alike, Delivered, Next;
    if steps != [] {
      var s, rest := steps[0], Alone(steps[1..], system);
      if Foreign(s, system) {
        ForeignPublishIsUnseen(h, g, s, system);
        AlikeHubsReceiveAlike(Next(h, s), g, steps[1..], system);
        assert [] + rest == rest;
      } else {
        OwnStepIsShared(h, g, s, system);
        AlikeHubsReceiveAlike(Next(h, s), Next(g, s), steps[1..], system);
        assert ([s] + rest)[1..] == rest;
      }
    }
  }

  /** What one system's subscribers receive is what they would receive if no other
      system published anything: same events, numbers and times. */
  lemma SystemsDoNotInterfere(h: Hub, steps: seq<Step>, system: string)
    ensures Received(h, steps, system) == Received(h, Alone(steps, system), system)
  {
    AlikeHubsReceiveAlike(h, h, steps, system);
  }

  // ---------- Numbering ----------

  /** The sequence numbers that a system's publishes get over a run. */
  function Numbers(h: Hub, steps: seq<Step>, system: string): seq<nat>
    decreases |steps|
  {
    if steps == [] then []
    else
      (if Publishes(h, steps[0]) && steps[0].event.system == system
       then [Publish(h, steps[0].event, steps[0].now).outcome.seqNo] else [])
      + Numbers(Next(h, steps[0]), steps[1..], system)
  }

  /** They continue the last number without a gap, however systems interleave. */
  lemma {:induction false} NumbersHaveNoGap(h: Hub, steps: seq<Step>, system: string, k: nat)
    requires k < |Numbers(h, steps, system)|
    ensures Numbers(h, steps, system)[k] == LastSeq(h, system) + 1 + k
    decreases |steps|
  {
    hide EventKey, Fanout, Without;
    var next := Next(h, steps[0]);
    if Publishes(h, steps[0]) && steps[0].event.system == system {
      if k > 0 {
        NumbersHaveNoGap(next, steps[1..], system, k - 1);
      }
    } else {
      NumbersHaveNoGap(next, steps[1..], system, k);
    }
  }

  /** They are the numbers of exactly its publishes: the last number has grown by as
      many. */
  lemma {:induction false} NumbersAreAll(h: Hub, steps: seq<Step>, system: string)
    ensures LastSeq(After(h, steps), system) == LastSeq(h, system) + |Numbers(h, steps, system)|
    decreases |steps|
  {
    hide EventKey, Fanout, Without;
    if steps != [] {
      NumbersAreAll(Next(h, steps[0]), steps[1..], system);
    }
  }

  /** Whatever a publish delivers to the system's subscribers is among what they
      receive. */
  lemma {:induction false} ReceivedIsAll(h: Hub, steps: seq<Step>, i: nat, d: Delivery)
    requires i < |steps| && steps[i].DoPublish?
    requires var outcome := Publish(After(h, steps[..i]), steps[i].event, steps[i].now).outcome;
             outcome.Published? && d in outcome.deliveries
    ensures d in Received(h, steps, d.sub.system)
    decreases |steps|
  {
    hide EventKey, Fanout, Without;
    if i == 0 {
      assert steps[..0] == [] && After(h, []) == h;
      ToSystemKeeps(Delivered(h, steps[0]), d);
    } else {
      assert steps[..i][0] == steps[0] && steps[..i][1..] == steps[1..][..i - 1];
      ReceivedIsAll(Next(h, steps[0]), steps[1..], i - 1, d);
    }
  }

  lemma {:induction false} ToSystemKeeps(ds: seq<Delivery>, d: Delivery)
    requires d in ds
    ensures d in ToSystem(ds, d.sub.system)
  {
    if ds[0] != d {
      ToSystemKeeps(ds[1..], d);
    }
  }

  // ---------- Deduplication ----------

  datatype Acceptance = Acceptance(key: string, at: int)

  /** The publishes that were let through. */
  function Accepted(h: Hub, steps: seq<Step>): seq<Acceptance>
    decreases |steps|
  {
    if steps == [] then []
    else
      (if Publishes(h, steps[0]) then [Acceptance(EventKey(steps[0].event).value, steps[0].now)] else [])
      + Accepted(Next(h, steps[0]), steps[1..])
  }

  function After(h: Hub, steps: seq<Step>): Hub
    decreases |steps|
  {
    if steps == [] then h else After(Next(h, steps[0]), steps[1..])
  }

  /** After an accepted publish, the next one with its key is a window later. */
  lemma {:induction false} AcceptedAfterSeen(h: Hub, steps: seq<Step>, j: nat)
    requires j < |Accepted(h, steps)| && Accepted(h, steps)[j].key in h.seen
    ensures Accepted(h, steps)[j].at - h.seen[Accepted(h, steps)[j].key] >= DEDUPE_WINDOW_MS
    decreases |steps|
  {
    hide EventKey, Fanout, Without;
    if Publishes(h, steps[0]) {
      if j > 0 {
        AcceptedAfterSeen(Next(h, steps[0]), steps[1..], j - 1);
      }
    } else {
      AcceptedAfterSeen(Next(h, steps[0]), steps[1..], j);
    }
  }

  /** Equal events are let through at least a window apart, whatever the clock
      does: it need not even be monotone. */
  lemma {:induction false} EqualEventsAreApart(h: Hub, steps: seq<Step>, i: nat, j: nat)
    requires i < j < |Accepted(h, steps)| && Accepted(h, steps)[i].key == Accepted(h, steps)[j].key
    ensures Accepted(h, steps)[j].at - Accepted(h, steps)[i].at >= 1000
    decreases |steps|
  {
    hide EventKey, Fanout, Without;
    var next := Next(h, steps[0]);
    if Publishes(h, steps[0]) {
      if i == 0 {
        AcceptedAfterSeen(next, steps[1..], j - 1);
      } else {
        EqualEventsAreApart(next, steps[1..], i - 1, j - 1);
      }
    } else {
      EqualEventsAreApart(next, steps[1..], i, j);
    }
  }

  ghost predicate SeenRecently(acceptances: seq<Acceptance>, key: string, now: int) {
    exists i :: 0 <= i < |acceptances| && acceptances[i].key == key && now - acceptances[i].at < 1000
  }

  lemma {:induction false} SeenIsLatest(h: Hub, steps: seq<Step>, key: string, now: int)
    ensures var g := After(h, steps);
            (key in g.seen && now - g.seen[key] < DEDUPE_WINDOW_MS)
            <==> SeenRecently(Accepted(h, steps), key, now) || (key in h.seen && now - h.seen[key] < DEDUPE_WINDOW_MS)
    decreases |steps|
  {
    hide EventKey, Fanout, Without;
    if steps != [] {
      var s, next := steps[0], Next(h, steps[0]);
      var later := Accepted(next, steps[1..]);
      SeenIsLatest(next, steps[1..], key, now);
      if Publishes(h, s) {
        var first := Acceptance(EventKey(s.event).value, s.now);
        assert Accepted(h, steps) == [first] + later;
        SeenByEither(first, later, key, now);
        if first.key == key {
          if key in h.seen && now - h.seen[key] < DEDUPE_WINDOW_MS {
            assert s.now - h.seen[key] >= DEDUPE_WINDOW_MS;
          }
        }
      } else {
        assert Accepted(h, steps) == [] + later == later;
      }
    }
  }

  lemma SeenByEither(first: Acceptance, later: seq<Acceptance>, key: string, now: int)
    ensures SeenRecently([first] + later, key, now)
            <==> (first.key == key && now - first.at < DEDUPE_WINDOW_MS) || SeenRecently(later, key, now)
  {
    var all := [first] + later;
    if first.key == key && now - first.at < DEDUPE_WINDOW_MS {
      assert all[0] == first;
    }
    if SeenRecently(later, key, now) {
      var i :| 0 <= i < |later| && later[i].key == key && now - later[i].at < DEDUPE_WINDOW_MS;
      assert all[i + 1] == later[i];
    }
  }

  /** A publish is suppressed exactly when an equal event was let through less than
      a window before, counting from an empty hub. */
  lemma SuppressedExactly(steps: seq<Step>, e: HubEvent, now: int)
    requires EventKey(e).Some?
    ensures Publish(After(EmptyHub, steps), e, now).outcome == Suppressed
            <==> SeenRecently(Accepted(EmptyHub, steps), EventKey(e).value, now)
  {
    SeenIsLatest(EmptyHub, steps, EventKey(e).value, now);
  }

  /** Publishing without a workspace throws. */
  lemma WorkspaceIsRequired(h: Hub, e: HubEvent, now: int)
    requires e.workspace == None
    ensures Publish(h, e, now) == Out(h, Thrown)
  {
    assert "-"[0] == '-' && !IsLowerOrDigit('-');
  }

  // ---------- Who receives an event ----------

  function SubscribesIn(steps: seq<Step>): nat {
    if steps == [] then 0
    else SubscribesIn(steps[..|steps| - 1]) + if steps[|steps| - 1].DoSubscribe? then 1 else 0
  }

  /** Step i made the subscription `id`, the n-th one of the run, and no later step
      removed it. */
  ghost predicate Subscribed(steps: seq<Step>, i: nat, id: nat) {
    && i < |steps| && steps[i].DoSubscribe? && id == SubscribesIn(steps[..i + 1])
    && forall j :: i < j < |steps| ==> steps[j] != DoUnsubscribe(id)
  }

  lemma {:induction false} AfterAppend(h: Hub, steps: seq<Step>, s: Step)
    ensures After(h, steps + [s]) == Next(After(h, steps), s)
    decreases |steps|
  {
    hide Next;
    if steps == [] {
      assert (steps + [s])[1..] == [];
    } else {
      AfterAppend(Next(h, steps[0]), steps[1..], s);
      assert (steps + [s])[1..] == steps[1..] + [s];
    }
  }

  /** The table is the list of the living subscriptions, in their order. */
  ghost predicate TableInv(h: Hub, steps: seq<Step>) {
    && h.counter == SubscribesIn(steps)
    && (forall k :: 0 <= k < |h.subs| ==> h.subs[k].id <= h.counter)
    && (forall k, l :: 0 <= k < l < |h.subs| ==> h.subs[k].id < h.subs[l].id)
    && (forall sub: Sub :: sub in h.subs <==> IsLiving(steps, sub))
  }

  ghost predicate IsLiving(steps: seq<Step>, sub: Sub) {
    exists i: nat :: Subscribed(steps, i, sub.id) && steps[i] == DoSubscribe(sub.system, sub.workspace)
  }

  lemma {:induction false} WithoutKeeps(subs: seq<Sub>, id: nat)
    requires forall k, l :: 0 <= k < l < |subs| ==> subs[k].id < subs[l].id
    ensures var kept := Without(subs, id);
            && (forall sub: Sub :: sub in kept <==> sub in subs && sub.id != id)
            && (forall k, l :: 0 <= k < l < |kept| ==> kept[k].id < kept[l].id)
  {
    if subs != [] {
      WithoutKeeps(subs[1..], id);
      var rest, kept := Without(subs[1..], id), Without(subs, id);
      assert forall sub: Sub :: sub in subs <==> sub == subs[0] || sub in subs[1..];
      if subs[0].id != id {
        assert kept == [subs[0]] + rest;
        forall l | 0 <= l < |rest|
          ensures subs[0].id < rest[l].id
        {
          assert rest[l] in rest;
          var k :| 0 <= k < |subs[1..]| && subs[1..][k] == rest[l];
        }
      } else {
        assert kept == [] + rest == rest;
        forall sub: Sub | sub in rest
          ensures sub.id != id
        {
          var k :| 0 <= k < |subs[1..]| && subs[1..][k] == sub;
        }
      }
    }
  }

  lemma SubscribedNow(steps: seq<Step>, s: Step, id: nat)
    ensures Subscribed(steps + [s], |steps|, id) <==> s.DoSubscribe? && id == SubscribesIn(steps) + 1
  {
    var more, n := steps + [s], |steps|;
    assert more[..n + 1] == more && more[n] == s && more[..n] == steps;
  }

  lemma SubscribedBefore(steps: seq<Step>, s: Step, i: nat, id: nat)
    requires i < |steps|
    ensures Subscribed(steps + [s], i, id) <==> Subscribed(steps, i, id) && s != DoUnsubscribe(id)
  {
    hide SubscribesIn;
    var more, n := steps + [s], |steps|;
    assert more[..i + 1] == steps[..i + 1] && more[i] == steps[i];
    assert more[n] == s && forall j :: i < j < n ==> more[j] == steps[j];
  }

  lemma LivingStep(steps: seq<Step>, s: Step, sub: Sub)
    ensures IsLiving(steps + [s], sub)
            <==> || (s == DoSubscribe(sub.system, sub.workspace) && sub.id == SubscribesIn(steps) + 1)
                 || (IsLiving(steps, sub) && s != DoUnsubscribe(sub.id))
  {
    var more, n := steps + [s], |steps|;
    hide SubscribesIn;
    SubscribedNow(steps, s, sub.id);
    assert more[n] == s;
    if i: nat :| Subscribed(steps, i, sub.id) && steps[i] == DoSubscribe(sub.system, sub.workspace) {
      SubscribedBefore(steps, s, i, sub.id);
      assert more[i] == steps[i];
    }
    if i: nat :| Subscribed(more, i, sub.id) && more[i] == DoSubscribe(sub.system, sub.workspace) {
      if i < n {
        SubscribedBefore(steps, s, i, sub.id);
        assert more[i] == steps[i];
      }
    }
  }

  lemma {:induction false} TableIsLiving(steps: seq<Step>)
    ensures TableInv(After(EmptyHub, steps), steps)
    decreases |steps|
  {
    hide TableInv, Next;
    if steps == [] {
      NothingLives();
    } else {
      var n := |steps| - 1;
      var s, h := steps[n], After(EmptyHub, steps[..n]);
      assert steps == steps[..n] + [s];
      TableIsLiving(steps[..n]);
      AfterAppend(EmptyHub, steps[..n], s);
      StepKeepsTable(h, steps[..n], s);
    }
  }

  lemma StepKeepsTable(h: Hub, steps: seq<Step>, s: Step)
    requires TableInv(h, steps)
    ensures TableInv(Next(h, s), steps + [s])
  {
    hide IsLiving, EventKey, Fanout, Without;
    var g := Next(h, s);
    assert (steps + [s])[..|steps|] == steps;
    if s.DoUnsubscribe? {
      WithoutKeeps(h.subs, s.id);
      forall k | 0 <= k < |g.subs|
        ensures g.subs[k].id <= g.counter
      {
        assert g.subs[k] in g.subs;
      }
    }
    forall sub: Sub
      ensures sub in g.subs <==> IsLiving(steps + [s], sub)
    {
      LivingStep(steps, s, sub);
      assert sub in h.subs <==> IsLiving(steps, sub);
    }
  }

  lemma NothingLives()
    ensures TableInv(EmptyHub, [])
  {
  }

  lemma {:induction false} FanoutSelects(subs: seq<Sub>, e: HubEvent, seqNo: nat, at: int)
    requires forall k, l :: 0 <= k < l < |subs| ==> subs[k].id < subs[l].id
    ensures var ds := Fanout(subs, e, seqNo, at);
            && (forall k :: 0 <= k < |ds| ==> ds[k].event == e && ds[k].seqNo == seqNo && ds[k].at == at)
            && (forall k, l :: 0 <= k < l < |ds| ==> ds[k].sub.id < ds[l].sub.id)
            && (forall sub: Sub :: Delivery(sub, e, seqNo, at) in ds
                  <==> sub in subs && sub.system == e.system && (sub.workspace == None || sub.workspace == e.workspace))
  {
    if subs != [] {
      var rest, ds := Fanout(subs[1..], e, seqNo, at), Fanout(subs, e, seqNo, at);
      FanoutSelects(subs[1..], e, seqNo, at);
      assert forall sub: Sub :: sub in subs <==> sub == subs[0] || sub in subs[1..];
      if Wants(subs[0], e) {
        assert ds == [Delivery(subs[0], e, seqNo, at)] + rest;
        forall l | 0 <= l < |rest|
          ensures subs[0].id < rest[l].sub.id
        {
          assert rest[l] == Delivery(rest[l].sub, e, seqNo, at) && rest[l] in rest;
          var k :| 0 <= k < |subs[1..]| && subs[1..][k] == rest[l].sub;
        }
      } else {
        assert ds == [] + rest == rest;
      }
    }
  }

  /** In every run a publish that is let through reaches exactly the subscriptions
      that were made before and not removed since, that are of the event's system
      and that name no workspace or the event's own: each of them once, in the
      order of their subscription, with the event unchanged. */
  lemma EventsReachTheirSubscribers(steps: seq<Step>, e: HubEvent, now: int)
    requires Publish(After(EmptyHub, steps), e, now).outcome.Published?
    ensures var outcome := Publish(After(EmptyHub, steps), e, now).outcome;
            var ds := outcome.deliveries;
            && (forall k :: 0 <= k < |ds| ==> ds[k].event == e && ds[k].seqNo == outcome.seqNo && ds[k].at == now)
            && (forall k, l :: 0 <= k < l < |ds| ==> ds[k].sub.id < ds[l].sub.id)
            && (forall sub: Sub ::
                  Delivery(sub, e, outcome.seqNo, now) in ds
                  <==> && sub.system == e.system && (sub.workspace == None || sub.workspace == e.workspace)
                       && exists i: nat :: Subscribed(steps, i, sub.id) && steps[i] == DoSubscribe(sub.system, sub.workspace))
  {
    hide After, EventKey, Fanout;
    TableIsLiving(steps);
    var h := After(EmptyHub, steps);
    var outcome := Publish(h, e, now).outcome;
    FanoutSelects(h.subs, e, outcome.seqNo, now);
    assert outcome.deliveries == Fanout(h.subs, e, outcome.seqNo, now);
    forall sub: Sub
      ensures Delivery(sub, e, outcome.seqNo, now) in outcome.deliveries
              <==> sub.system == e.system && (sub.workspace == None || sub.workspace == e.workspace) && IsLiving(steps, sub)
    {
      assert sub in h.subs <==> IsLiving(steps, sub);
    }
  }
}
