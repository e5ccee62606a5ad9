/** The hub as the object it is: tables updated in place, listeners called in the
    order of their subscription. */
module HubObject {
  import opened Wrappers
  import opened ScopeKeys
  import opened EventHub
  import Model = EventHub

  class SubscriptionHub {
    var subs: seq<Sub>
    var seqBySystem: map<string, nat>
    var seen: map<string, int>
    var counter: nat

    ghost function Abs(): Hub
      reads this
    {
      Hub(subs, counter, seqBySystem, seen)
    }

    constructor ()
      ensures Abs() == EmptyHub
    {
      subs, seqBySystem, seen, counter := [], map[], map[], 0;
    }

    method Subscribe(system: string, workspace: Option<string>) returns (id: nat)
      modifies this
      ensures Abs() == Model.Subscribe(old(Abs()), system, workspace) && id == counter
    {
      counter := counter + 1;
      id := counter;
      subs := subs + [Sub(id, system, workspace)];
    }

    method Unsubscribe(id: nat)
      modifies this`subs
      ensures Abs() == Model.Unsubscribe(old(Abs()), id)
    {
      var kept: seq<Sub> := [];
      for i := 0 to |subs|
        invariant subs == old(subs)
        invariant Without(old(subs), id) == kept + Without(old(subs)[i..], id)
      {
        assert subs[i..][1..] == subs[i + 1..];
        if subs[i].id != id {
          kept := kept + [subs[i]];
        }
      }
      assert Without(old(subs)[|subs|..], id) == [];
      subs := kept;
    }

    method Publish(e: HubEvent, now: int) returns (outcome: Outcome)
      modifies this`seen, this`seqBySystem
      ensures Out(Abs(), outcome) == Model.Publish(old(Abs()), e, now)
    {
      var key := EventKey(e);
      if key.None? {
        return Thrown;
      }
      if key.value in seen && now - seen[key.value] < DEDUPE_WINDOW_MS {
        return Suppressed;
      }
      seen := seen[key.value := now];
      var seqNo := (if e.system in seqBySystem then seqBySystem[e.system] else 0) + 1;
      seqBySystem := seqBySystem[e.system := seqNo];
      var deliveries: seq<Delivery> := [];
      ghost var counted := Abs();
      for i := 0 to |subs|
        invariant Abs() == counted
        invariant Fanout(subs, e, seqNo, now) == deliveries + Fanout(subs[i..], e, seqNo, now)
      {
        assert subs[i..][1..] == subs[i + 1..];
        if Wants(subs[i], e) {
          deliveries := deliveries + [Delivery(subs[i], e, seqNo, now)];
        }
      }
      assert subs[|subs|..] == [] && Fanout(subs[|subs|..], e, seqNo, now) == [];
      assert deliveries == Fanout(subs, e, seqNo, now);
      outcome := Published(seqNo, deliveries);
    }
  }
}
