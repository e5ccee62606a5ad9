/** The gateway client: queries in flight across retargets, and a result cache
    keyed by scope, method and parameters. */
module ClientQueries {
  import opened Wrappers
  import opened ScopeKeys
  import opened ConversationTypes

  type Value = string

  /** Everything that identifies a query; `params` is its JSON text. */
  datatype Question = Question(scope: ClientScope, operation: string, params: string)

  /** What the protocol schema admits. */
  predicate WellFormed(q: Question) {
    && IsSystemId(q.scope.systemId) && NoColon(q.operation)
    && (q.scope.workspaceId.Some? ==> IsWorkspaceId(q.scope.workspaceId.value))
  }

  function Key(q: Question): string {
    Join([q.scope.systemId, q.operation, q.scope.workspaceId.GetOr("-"), q.params])
  }

  datatype Entry = Entry(value: Value, at: int, ttl: int)

  datatype InFlight = InFlight(epoch: nat, question: Question, noCache: bool, ttl: int)

  /** A value handed to a caller while `scope` was selected. */
  datatype Delivery = Delivery(scope: ClientScope, question: Question, value: Value)

  /** A value the host gave in answer to a question; kept for the theorems, like
      the deliveries. */
  datatype Given = Given(question: Question, value: Value)

  datatype Client = Client(scope: ClientScope, selection: nat, counter: nat, cache: map<string, Entry>,
                           pending: map<nat, InFlight>, given: set<Given>, delivered: seq<Delivery>)

  function Fresh(scope: ClientScope): Client {
    Client(scope, 0, 0, map[], map[], {}, [])
  }

  datatype Reply = Lost | Reply(systemId: Option<string>, ok: bool, value: Value)

  function Deliver(c: Client, q: Question, value: Value): Client {
    c.(delivered := c.delivered + [Delivery(c.scope, q, value)])
  }

  predicate Hit(c: Client, q: Question, noCache: bool, now: int) {
    !noCache && Key(q) in c.cache && now - c.cache[Key(q)].at <= c.cache[Key(q)].ttl
  }

  /** A query up to its request, or to the cached value. */
  function Ask(c: Client, operation: string, params: string, noCache: bool, ttl: int, now: int): Client {
    var d := c.(counter := c.counter + 1);
    var q := Question(c.scope, operation, params);
    if !WellFormed(q) then d
    else if Hit(d, q, noCache, now) then Deliver(d, q, d.cache[Key(q)].value)
    else d.(pending := d.pending[d.counter := InFlight(c.selection, q, noCache, ttl)])
  }

  predicate Usable(c: Client, query: InFlight, reply: Reply) {
    && reply.Reply? && query.epoch == c.selection
    && (reply.systemId.Some? ==> reply.systemId.value == query.question.scope.systemId)
    && reply.ok
  }

  /** What the host gave: a success that names no other system than the one asked. */
  function GivenBy(question: Question, reply: Reply): set<Given> {
    if reply.Reply? && reply.ok && (reply.systemId == None || reply.systemId == Some(question.scope.systemId))
    then {Given(question, reply.value)} else {}
  }

  /** The rest of a query, from its reply. */
  function Answer(c: Client, ticket: nat, reply: Reply, now: int): Client {
    if ticket !in c.pending then
      c
    else
      var query := c.pending[ticket];
      var d := c.(pending := c.pending - {ticket},
                  given := c.given + GivenBy(query.question, reply));
      if !Usable(c, query, reply) then
        d
      else
        var e := if query.noCache then d
                 else d.(cache := d.cache[Key(query.question) := Entry(reply.value, now, query.ttl)]);
        Deliver(e, query.question, reply.value)
  }

  function Retargeting(c: Client, scope: ClientScope): Client {
    c.(scope := scope, selection := c.selection + 1)
  }

  datatype Event =
    | Asked(operation: string, params: string, noCache: bool, ttl: int, now: int)
    | Answered(ticket: nat, reply: Reply, now: int)
    | Retargeted(scope: ClientScope)
    | Cleared

  function Step(c: Client, e: Event): Client {
    match e
    case Asked(operation, params, noCache, ttl, now) => Ask(c, operation, params, noCache, ttl, now)
    case Answered(ticket, reply, now) => Answer(c, ticket, reply, now)
    case Retargeted(scope) => Retargeting(c, scope)
    case Cleared => c.(cache := map[])
  }

  function After(c: Client, events: seq<Event>): Client
    decreases |events|
  {
    if events == [] then c else After(Step(c, events[0]), events[1..])
  }

  // ---------- Every delivered value ----------

  lemma KeyIdentifies(q: Question, r: Question)
    requires WellFormed(q) && WellFormed(r) && Key(q) == Key(r)
    ensures q == r
  {
    SlugHasNoColon(q.scope.systemId);
    SlugHasNoColon(r.scope.systemId);
    var w, v := q.scope.workspaceId.GetOr("-"), r.scope.workspaceId.GetOr("-");
    WorkspaceHasNoColon(q);
    WorkspaceHasNoColon(r);
    assert [q.scope.systemId, q.operation, w, q.params] == [q.scope.systemId, q.operation, w] + [q.params] + [];
    assert [r.scope.systemId, r.operation, v, r.params] == [r.scope.systemId, r.operation, v] + [r.params] + [];
    KeysAreTuples([q.scope.systemId, q.operation, w], q.params, [], [r.scope.systemId, r.operation, v], r.params, []);
    assert [q.scope.systemId, q.operation, w][1] == [r.scope.systemId, r.operation, v][1];
    assert [q.scope.systemId, q.operation, w][2] == [r.scope.systemId, r.operation, v][2];
    assert !IsLowerOrDigit("-"[0]);
  }

  lemma WorkspaceHasNoColon(q: Question)
    requires WellFormed(q)
    ensures NoColon(q.scope.workspaceId.GetOr("-"))
  {
    if q.scope.workspaceId.Some? {
      SlugHasNoColon(q.scope.workspaceId.value);
    }
  }

  ghost predicate PendingOk(c: Client, query: InFlight) {
    && query.epoch <= c.selection && WellFormed(query.question)
    && (query.epoch == c.selection ==> query.question.scope == c.scope)
  }

  ghost predicate CacheTrue(cache: map<string, Entry>, given: set<Given>) {
    forall q: Question :: WellFormed(q) && Key(q) in cache ==> Given(q, cache[Key(q)].value) in given
  }

  ghost predicate DeliveryTrue(d: Delivery, given: set<Given>) {
    d.question.scope == d.scope && Given(d.question, d.value) in given
  }

  ghost predicate Inv(c: Client) {
    && (forall t :: t in c.pending ==> PendingOk(c, c.pending[t]))
    && CacheTrue(c.cache, c.given)
    && (forall k :: 0 <= k < |c.delivered| ==> DeliveryTrue(c.delivered[k], c.given))
  }

  lemma AnswerKeepsInv(c: Client, ticket: nat, reply: Reply, now: int)
    requires Inv(c)
    ensures Inv(Answer(c, ticket, reply, now))
  {
    hide Key, WellFormed;
    if ticket in c.pending {
      var query, d := c.pending[ticket], Answer(c, ticket, reply, now);
      assert PendingOk(c, query);
      forall t | t in d.pending
        ensures PendingOk(d, d.pending[t])
      {
        assert PendingOk(c, c.pending[t]);
      }
      forall q: Question | WellFormed(q) && Key(q) in d.cache
        ensures Given(q, d.cache[Key(q)].value) in d.given
      {
        if Usable(c, query, reply) && !query.noCache && Key(q) == Key(query.question) {
          KeyIdentifies(q, query.question);
        }
      }
      forall k | 0 <= k < |d.delivered|
        ensures DeliveryTrue(d.delivered[k], d.given)
      {
        if k < |c.delivered| {
          assert DeliveryTrue(c.delivered[k], c.given);
        }
      }
    }
  }

  lemma StepKeepsInv(c: Client, e: Event)
    requires Inv(c)
    ensures Inv(Step(c, e))
  {
    hide Key, WellFormed, Answer;
    match e {
      case Answered(ticket, reply, now) => AnswerKeepsInv(c, ticket, reply, now);
      case _ =>
        assert forall t :: t in c.pending ==> PendingOk(c, c.pending[t]);
        assert forall k :: 0 <= k < |c.delivered| ==> DeliveryTrue(c.delivered[k], c.given);
    }
  }

  lemma {:induction false} AfterKeepsInv(c: Client, events: seq<Event>)
    requires Inv(c)
    ensures Inv(After(c, events))
    decreases |events|
  {
    hide Inv, Step;
    if events != [] {
      StepKeepsInv(c, events[0]);
      AfterKeepsInv(Step(c, events[0]), events[1..]);
    }
  }

  /** Every value that any query delivers, cached or fresh, was given by the host
      for exactly that method and those parameters in the scope that is selected
      when it is delivered. */
  lemma DeliveriesAreForTheirScope(scope: ClientScope, events: seq<Event>, k: nat)
    requires k < |After(Fresh(scope), events).delivered|
    ensures var c := After(Fresh(scope), events);
            c.delivered[k].question.scope == c.delivered[k].scope
            && Given(c.delivered[k].question, c.delivered[k].value) in c.given
  {
    hide After;
    AfterKeepsInv(Fresh(scope), events);
    assert DeliveryTrue(After(Fresh(scope), events).delivered[k], After(Fresh(scope), events).given);
  }

  // ---------- Late replies ----------

  lemma {:induction false} SelectionGrows(c: Client, events: seq<Event>)
    ensures After(c, events).selection >= c.selection
    decreases |events|
  {
    hide Key, WellFormed;
    if events != [] {
      SelectionGrows(Step(c, events[0]), events[1..]);
    }
  }

  /** A reply to a query from before a retarget delivers nothing and caches nothing,
      even after the same scope has been selected again. */
  lemma LateReplyIsDropped(c: Client, scope: ClientScope, events: seq<Event>, ticket: nat, query: InFlight,
                           reply: Reply, now: int)
    requires query.epoch <= c.selection
    requires var d := After(Retargeting(c, scope), events); ticket in d.pending && d.pending[ticket] == query
    ensures var d := After(Retargeting(c, scope), events);
            var e := Answer(d, ticket, reply, now);
            e.delivered == d.delivered && e.cache == d.cache
  {
    SelectionGrows(Retargeting(c, scope), events);
  }

  // ---------- Which queries are answered, from where ----------

  function At(start: Client, events: seq<Event>, k: nat): Client
    requires k <= |events|
  {
    After(start, events[..k])
  }

  lemma {:induction false} AfterAppend(c: Client, events: seq<Event>, e: Event)
    ensures After(c, events + [e]) == Step(After(c, events), e)
    decreases |events|
  {
    hide Step;
    if events == [] {
      assert (events + [e])[1..] == [];
    } else {
      AfterAppend(Step(c, events[0]), events[1..], e);
      assert (events + [e])[1..] == events[1..] + [e];
    }
  }

  lemma AtNext(start: Client, events: seq<Event>, k: nat)
    requires k < |events|
    ensures At(start, events, k + 1) == Step(At(start, events, k), events[k])
  {
    hide Step;
    AfterAppend(start, events[..k], events[k]);
    assert events[..k + 1] == events[..k] + [events[k]];
  }

  /** The event is a success for this question, of the system asked and of the
      present selection, to a query that may be cached. */
  predicate Stores(c: Client, e: Event, q: Question, entry: Entry) {
    && e.Answered? && e.ticket in c.pending && c.pending[e.ticket].question == q
    && !c.pending[e.ticket].noCache && c.pending[e.ticket].epoch == c.selection
    && e.reply.Reply? && e.reply.ok && (e.reply.systemId == None || e.reply.systemId == Some(q.scope.systemId))
    && entry == Entry(e.reply.value, e.now, c.pending[e.ticket].ttl)
  }

  /** Event j stored this entry for the question, and no later event before k cleared
      the cache or stored the question anew. */
  ghost predicate StoredLast(start: Client, events: seq<Event>, j: nat, k: nat, q: Question, entry: Entry)
    requires k <= |events|
  {
    && j < k && Stores(At(start, events, j), events[j], q, entry)
    && forall n :: j < n < k ==> events[n] != Cleared && forall other :: !Stores(At(start, events, n), events[n], q, other)
  }

  lemma StoredLater(start: Client, events: seq<Event>, j: nat, k: nat, q: Question, entry: Entry)
    requires k < |events|
    ensures StoredLast(start, events, j, k + 1, q, entry)
            <==> if j == k then Stores(At(start, events, k), events[k], q, entry)
                 else StoredLast(start, events, j, k, q, entry) && events[k] != Cleared
                      && forall other :: !Stores(At(start, events, k), events[k], q, other)
  {
    hide At, Stores;
  }

  ghost predicate Holds(c: Client, q: Question, entry: Entry) {
    Key(q) in c.cache && c.cache[Key(q)] == entry
  }

  lemma StepStores(c: Client, e: Event, q: Question, entry: Entry)
    requires WellFormed(q) && forall t :: t in c.pending ==> WellFormed(c.pending[t].question)
    ensures Holds(Step(c, e), q, entry)
            <==> || Stores(c, e, q, entry)
                 || (Holds(c, q, entry) && e != Cleared && forall other :: !Stores(c, e, q, other))
  {
    hide Key, WellFormed, Ask;
    AskStoresNothing(c, e);
    if e.Answered? && e.ticket in c.pending {
      var query := c.pending[e.ticket];
      if Key(query.question) == Key(q) {
        KeyIdentifies(query.question, q);
      }
      if Stores(c, e, query.question, Entry(if e.reply.Reply? then e.reply.value else "", e.now, query.ttl)) {
        assert Usable(c, query, e.reply);
      }
    }
  }

  lemma AskStoresNothing(c: Client, e: Event)
    ensures e.Asked? ==> Step(c, e).cache == c.cache
  {
    hide Key, WellFormed;
  }

  /** In every run the cache holds an entry for a question exactly if some event
      stored it last. */
  lemma {:induction false} CacheHoldsLastStored(scope: ClientScope, events: seq<Event>, k: nat, q: Question, entry: Entry)
    requires k <= |events| && WellFormed(q)
    ensures Holds(At(Fresh(scope), events, k), q, entry)
            <==> exists j: nat :: StoredLast(Fresh(scope), events, j, k, q, entry)
  {
    hide Step, Stores, Holds, WellFormed;
    var start := Fresh(scope);
    if k == 0 {
      FreshHoldsNothing(scope, q, entry);
      assert At(start, events, 0) == start;
    } else {
      var m: nat := k - 1;
      CacheHoldsLastStored(scope, events, m, q, entry);
      AtNext(start, events, m);
      PendingIsWellFormed(scope, events, m);
      StepStores(At(start, events, m), events[m], q, entry);
      StoredLater(start, events, m, m, q, entry);
      if exists j: nat :: StoredLast(start, events, j, m, q, entry) {
        var j: nat :| StoredLast(start, events, j, m, q, entry);
        StoredLater(start, events, j, m, q, entry);
      }
      if exists j: nat :: StoredLast(start, events, j, k, q, entry) {
        var j: nat :| StoredLast(start, events, j, k, q, entry);
        StoredLater(start, events, j, m, q, entry);
      }
    }
  }

  lemma FreshHoldsNothing(scope: ClientScope, q: Question, entry: Entry)
    ensures !Holds(Fresh(scope), q, entry)
  {
  }

  lemma PendingIsWellFormed(scope: ClientScope, events: seq<Event>, k: nat)
    requires k <= |events|
    ensures var c := At(Fresh(scope), events, k); forall t :: t in c.pending ==> WellFormed(c.pending[t].question)
  {
    hide After, WellFormed, Key;
    AfterKeepsInv(Fresh(scope), events[..k]);
    var c := At(Fresh(scope), events, k);
    assert forall t :: t in c.pending ==> PendingOk(c, c.pending[t]);
  }

  /** In every run a query is answered at once exactly if it is well formed, allows the
      cache, and the value stored last for its method and parameters in the scope
      selected now is not older than its time to live; it then gets that value. A
      query that is well formed but not so answered is sent with that scope and the
      present selection, under a new number; any other is refused. */
  lemma CacheHitsExactly(scope: ClientScope, events: seq<Event>, k: nat)
    requires k < |events| && events[k].Asked?
    ensures var start := Fresh(scope);
            var c, d, e := At(start, events, k), At(start, events, k + 1), events[k];
            var q := Question(c.scope, e.operation, e.params);
            && d.counter == c.counter + 1 && d.cache == c.cache && d.scope == c.scope && d.selection == c.selection
            && (forall value: Value ::
                  d.delivered == c.delivered + [Delivery(c.scope, q, value)]
                  <==> WellFormed(q) && !e.noCache
                       && exists j: nat, entry: Entry ::
                            StoredLast(start, events, j, k, q, entry) && entry.value == value && e.now - entry.at <= entry.ttl)
            && d.pending == (if WellFormed(q) && d.delivered == c.delivered
                             then c.pending[d.counter := InFlight(c.selection, q, e.noCache, e.ttl)] else c.pending)
  {
    hide After, Key, WellFormed, StoredLast, Holds;
    var start := Fresh(scope);
    var c, d, e := At(start, events, k), At(start, events, k + 1), events[k];
    var q := Question(c.scope, e.operation, e.params);
    AtNext(start, events, k);
    AskExactly(c, e);
    if WellFormed(q) {
      forall entry: Entry
        ensures Holds(c, q, entry) <==> exists j: nat :: StoredLast(start, events, j, k, q, entry)
      {
        CacheHoldsLastStored(scope, events, k, q, entry);
      }
    }
  }

  lemma AskExactly(c: Client, e: Event)
    requires e.Asked?
    ensures var d, q := Step(c, e), Question(c.scope, e.operation, e.params);
            && d.counter == c.counter + 1 && d.cache == c.cache && d.scope == c.scope && d.selection == c.selection
            && (forall value: Value ::
                  d.delivered == c.delivered + [Delivery(c.scope, q, value)]
                  <==> WellFormed(q) && !e.noCache
                       && exists entry: Entry :: Holds(c, q, entry) && entry.value == value && e.now - entry.at <= entry.ttl)
            && d.pending == (if WellFormed(q) && d.delivered == c.delivered
                             then c.pending[d.counter := InFlight(c.selection, q, e.noCache, e.ttl)] else c.pending)
  {
    hide Key, WellFormed;
    var d, q := Step(c, e), Question(c.scope, e.operation, e.params);
    forall value: Value
      ensures d.delivered == c.delivered + [Delivery(c.scope, q, value)]
              <==> WellFormed(q) && !e.noCache
                   && exists entry: Entry :: Holds(c, q, entry) && entry.value == value && e.now - entry.at <= entry.ttl
    {
      if WellFormed(q) && Hit(c, q, e.noCache, e.now) {
        var entry := c.cache[Key(q)];
        assert Holds(c, q, entry);
        assert d.delivered[|c.delivered|] == Delivery(c.scope, q, entry.value);
      } else {
        assert d.delivered == c.delivered;
      }
    }
  }

  /** The scope of the last retarget, or the first one. */
  function LastSelected(scope: ClientScope, events: seq<Event>): ClientScope {
    if events == [] then scope
    else if events[|events| - 1].Retargeted? then events[|events| - 1].scope
    else LastSelected(scope, events[..|events| - 1])
  }

  /** In every run the scope selected is that of the last retarget. */
  lemma {:induction false} ScopeIsLastSelected(scope: ClientScope, events: seq<Event>)
    ensures After(Fresh(scope), events).scope == LastSelected(scope, events)
    decreases |events|
  {
    hide Key, WellFormed;
    if events != [] {
      var n := |events| - 1;
      assert events == events[..n] + [events[n]];
      ScopeIsLastSelected(scope, events[..n]);
      AfterAppend(Fresh(scope), events[..n], events[n]);
    }
  }

  /** A reply is delivered exactly if its query is in flight and of the present
      selection, and it is a success of the system asked. */
  lemma RepliesExactly(c: Client, ticket: nat, reply: Reply, now: int)
    ensures var d := Answer(c, ticket, reply, now);
            && ticket !in d.pending && d.scope == c.scope && d.selection == c.selection
            && (forall t :: t != ticket ==> (t in d.pending <==> t in c.pending) && (t in c.pending ==> d.pending[t] == c.pending[t]))
            && d.delivered == (if ticket in c.pending && c.pending[ticket].epoch == c.selection && reply.Reply? && reply.ok
                                  && (reply.systemId == None || reply.systemId == Some(c.pending[ticket].question.scope.systemId))
                               then c.delivered + [Delivery(c.scope, c.pending[ticket].question, reply.value)]
                               else c.delivered)
  {
    hide Key;
  }

  // ---------- The client as the object it is ----------

  class DashboardClient {
    var scope: ClientScope
    var selectionEpoch: nat
    var counter: nat
    var cache: map<string, Entry>
    ghost var pending: map<nat, InFlight>
    ghost var given: set<Given>
    ghost var delivered: seq<Delivery>

    ghost function Abs(): Client
      reads this
    {
      Client(scope, selectionEpoch, counter, cache, pending, given, delivered)
    }

    constructor (scope: ClientScope)
      ensures Abs() == Fresh(scope)
      ensures this.scope == scope && selectionEpoch == 0
    {
      this.scope, selectionEpoch, counter, cache := scope, 0, 0, map[];
      pending, given, delivered := map[], {}, [];
    }

    method Retarget(scope: ClientScope)
      modifies this`scope, this`selectionEpoch
      ensures Abs() == Retargeting(old(Abs()), scope)
      ensures this.scope == scope && selectionEpoch == old(selectionEpoch) + 1
    {
      this.scope := scope;
      selectionEpoch := selectionEpoch + 1;
    }

    /** Up to the request: either a cached value, or what the continuation keeps. */
    method Query(operation: string, params: string, noCache: bool, ttl: int, now: int)
      returns (value: Option<Value>, sent: Option<InFlight>)
      modifies this
      ensures Abs() == Ask(old(Abs()), operation, params, noCache, ttl, now)
      ensures value.Some? ==> delivered == old(delivered) + [Delivery(scope, Question(scope, operation, params), value.value)]
      ensures sent.Some? ==> value.None? && counter in pending && pending[counter] == sent.value
    {
      hide Key, WellFormed;
      value, sent := None, None;
      counter := counter + 1;
      var question := Question(scope, operation, params);
      if !WellFormed(question) {
        return;
      }
      var key := Key(question);
      if !noCache && key in cache && now - cache[key].at <= cache[key].ttl {
        value := Some(cache[key].value);
        delivered := delivered + [Delivery(scope, question, cache[key].value)];
        return;
      }
      sent := Some(InFlight(selectionEpoch, question, noCache, ttl));
      pending := pending[counter := sent.value];
    }

    /** From the reply on. */
    method Finish(ghost ticket: nat, query: InFlight, reply: Reply, now: int) returns (value: Option<Value>)
      requires ticket in pending && pending[ticket] == query
      modifies this
      ensures Abs() == Answer(old(Abs()), ticket, reply, now)
      ensures value.Some? <==> Usable(old(Abs()), query, reply)
      ensures value.Some? ==> value.value == reply.value
    {
      hide Key;
      pending := pending - {ticket};
      given := given + GivenBy(query.question, reply);
      if reply.Lost? {
        return None;
      }
      if query.epoch != selectionEpoch {
        return None;
      }
      if reply.systemId.Some? && reply.systemId.value != query.question.scope.systemId {
        return None;
      }
      if !reply.ok {
        return None;
      }
      if !query.noCache {
        cache := cache[Key(query.question) := Entry(reply.value, now, query.ttl)];
      }
      delivered := delivered + [Delivery(scope, query.question, reply.value)];
      value := Some(reply.value);
    }
  }
}
