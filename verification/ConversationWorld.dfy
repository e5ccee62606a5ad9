/** Whole runs: the controller among its requests in flight. The environment
    answers any request in any order with any reply, delivers stream callbacks of
    any subscription ever made, and the user acts at any moment. */
module ConversationWorld {
  import opened Wrappers
  import opened JsText
  import opened ConfirmedHistory
  import opened ConversationTypes
  import opened SessionHistory
  import opened ConversationRun
  import opened ConversationInvariants
  import opened ConversationProgress
  import opened ConversationLedger
  import opened ConversationLedgerSteps

  datatype Event =
    | Call(command: Command)
    | Retargeted(scope: ClientScope)
    | Closed
    | Answer(ticket: nat, reply: Reply)
    | Streamed(index: nat, event: StreamEvent)
    | StreamLost(index: nat, code: Code)

  /** `facts` is what the owner has vouched for so far; `pane` is the historical
      part of the transcript shown to the user. */
  datatype World = World(ctl: Ctl, pending: map<nat, Continuation>, tickets: nat,
                         facts: set<Fact>, pane: seq<Turn>)

  function Start(scope: Scope): World {
    World(Init(scope), map[], 0, {}, [])
  }

  function Await(pending: map<nat, Continuation>, ticket: nat, next: Option<Continuation>): map<nat, Continuation> {
    if next.Some? then pending[ticket := next.value] else pending
  }

  function ShowDelivery(pane: seq<Turn>, delivery: Delivery): seq<Turn> {
    match delivery
    case Nothing => pane
    case Opened(turns, _, _) => turns
    case Prepended(turns, _, _) => turns + pane
  }

  function Apply(w: World, out: Out): World {
    w.(ctl := out.ctl, pending := Await(w.pending, w.tickets, out.next), tickets := w.tickets + 1,
       pane := ShowDelivery(w.pane, out.delivery))
  }

  /** The workspace that a request in flight asked about. */
  function Asked(w: World, ticket: nat): string
    requires ticket in w.pending
  {
    w.pending[ticket].lease.scope.workspaceId
  }

  function Receive(w: World, ticket: nat, reply: Reply): World
    requires ticket in w.pending
  {
    w.(pending := w.pending - {ticket}, facts := w.facts + ReplyFacts(reply, Asked(w, ticket)))
  }

  function Step(w: World, e: Event): World {
    match e
    case Call(command) =>
      (match Begin(w.ctl, command)
       case Failure(_) => w
       case Success(begun) => Apply(w, Out(begun.ctl, Some(begun.next), Nothing)))
    case Retargeted(scope) =>
      (match Retarget(w.ctl, scope)
       case Failure(_) => w
       case Success(ctl) => w.(ctl := ctl))
    case Closed => w.(ctl := Close(w.ctl))
    case Answer(ticket, reply) =>
      if ticket in w.pending then
        Apply(Receive(w, ticket, reply), Resume(w.ctl, w.pending[ticket], reply))
      else
        w
    case Streamed(index, event) =>
      if index < |w.ctl.subscriptions| then Apply(w, OnEvent(w.ctl, index, event)) else w
    case StreamLost(index, code) =>
      if index < |w.ctl.subscriptions| then Apply(w, OnInterrupted(w.ctl, index, code)) else w
  }

  function After(w: World, events: seq<Event>): World
    decreases |events|
  {
    if events == [] then w else After(Step(w, events[0]), events[1..])
  }

  // ---------- The invariant of every run ----------

  ghost predicate PendingOk(w: World, ticket: nat)
    requires ticket in w.pending
  {
    var k := w.pending[ticket];
    && ticket < w.tickets && ContinuationOk(w.ctl, k)
    && (k.AwaitPage? ==> RowsFacts(k.rows) <= w.facts)
  }

  ghost predicate OpensNow(w: World, ticket: nat) {
    ticket in w.pending && IsCurrent(w.ctl, w.pending[ticket]) && Opening(w.pending[ticket])
  }

  ghost predicate DrivesNow(w: World, ticket: nat) {
    ticket in w.pending && IsCurrent(w.ctl, w.pending[ticket]) && Driver(w.pending[ticket])
  }

  ghost predicate ReconcilesNow(w: World, ticket: nat) {
    ticket in w.pending && IsCurrent(w.ctl, w.pending[ticket]) && w.pending[ticket].AwaitReconcile?
  }

  ghost predicate RequestsInv(w: World) {
    && (forall t :: t in w.pending ==> PendingOk(w, t))
    && (forall t, u :: OpensNow(w, t) && OpensNow(w, u) ==> t == u)
  }

  ghost predicate ResponsibilityInv(w: World) {
    && (w.ctl.view.phase == Submitting ==> exists t :: DrivesNow(w, t))
    && (w.ctl.view.phase == Running ==> w.ctl.unsubscribe.Some? || exists t :: ReconcilesNow(w, t))
  }

  ghost predicate WorldInv(w: World) {
    && CoreInv(w.ctl) && LedgerInv(w.ctl, w.facts)
    && RequestsInv(w) && ResponsibilityInv(w)
    && w.pane == Render(w.ctl.log.rows)
  }

  lemma StartInv(scope: Scope)
    ensures WorldInv(Start(scope))
  {
    EmptyContext({});
  }

  // ---------- Requests in flight ----------

  /** A compatible step that may add one request, and may have consumed one. */
  lemma CompatibleKeepsRequests(w: World, out: Out)
    requires RequestsInv(w) && Compatible(w.ctl, out.ctl) && NextOk(out.ctl, out.next)
    requires out.next.Some? ==>
               !Opening(out.next.value) || out.ctl.epoch > w.ctl.epoch || w.ctl.view.phase != Submitting
    requires out.next.Some? && out.next.value.AwaitPage? ==> RowsFacts(out.next.value.rows) <= w.facts
    ensures RequestsInv(Apply(w, out))
  {
    hide ContinuationOk, Compatible;
    var v := Apply(w, out);
    forall t | t in v.pending
      ensures PendingOk(v, t)
    {
      if t in w.pending {
        assert PendingOk(w, t);
        CompatibleKeepsContinuation(w.ctl, out.ctl, w.pending[t]);
      }
    }
    forall t, u | OpensNow(v, t) && OpensNow(v, u)
      ensures t == u
    {
      OpeningIsOldOrNew(w, out, t);
      OpeningIsOldOrNew(w, out, u);
    }
  }

  lemma OpeningIsOldOrNew(w: World, out: Out, t: nat)
    requires RequestsInv(w) && Compatible(w.ctl, out.ctl)
    requires out.next.Some? ==>
               !Opening(out.next.value) || out.ctl.epoch > w.ctl.epoch || w.ctl.view.phase != Submitting
    requires OpensNow(Apply(w, out), t)
    ensures if out.next.Some? && Opening(out.next.value) then t == w.tickets else OpensNow(w, t)
  {
    if t in w.pending {
      assert PendingOk(w, t);
    }
  }

  lemma ReceiveKeepsRequests(w: World, ticket: nat, reply: Reply)
    requires RequestsInv(w) && ticket in w.pending
    ensures RequestsInv(Receive(w, ticket, reply))
  {
    var v := Receive(w, ticket, reply);
    forall t | t in v.pending
      ensures PendingOk(v, t)
    {
      assert PendingOk(w, t);
    }
    forall t, u | OpensNow(v, t) && OpensNow(v, u)
      ensures t == u
    {
      assert OpensNow(w, t) && OpensNow(w, u);
    }
  }

  /** The answer that opens a run, a session or a recovery changes the run in
      view. No other request of this epoch can be about a run yet. */
  lemma OpenedKeepsContinuation(w: World, ticket: nat, other: nat, d: Ctl)
    requires RequestsInv(w) && OpensNow(w, ticket) && other in w.pending && other != ticket
    requires d.epoch == w.ctl.epoch && d.scope == w.ctl.scope && d.selection == w.ctl.selection
    requires CursorStep(w.ctl, d)
    ensures ContinuationOk(d, w.pending[other])
  {
    assert PendingOk(w, ticket) && PendingOk(w, other);
    assert OpensNow(w, other) ==> other == ticket;
  }

  lemma OpenedKeepsRequests(w: World, ticket: nat, reply: Reply, out: Out)
    requires RequestsInv(w) && OpensNow(w, ticket)
    requires out.ctl.epoch == w.ctl.epoch && out.ctl.scope == w.ctl.scope && out.ctl.selection == w.ctl.selection
    requires CursorStep(w.ctl, out.ctl) && NextOk(out.ctl, out.next)
    requires out.next.Some? && out.next.value.AwaitPage? ==> RowsFacts(out.next.value.rows) <= w.facts + ReplyFacts(reply, Asked(w, ticket))
    ensures RequestsInv(Apply(Receive(w, ticket, reply), out))
  {
    hide ContinuationOk, CursorStep, RowsFacts, ReplyFacts;
    var v := Apply(Receive(w, ticket, reply), out);
    forall t | t in v.pending
      ensures PendingOk(v, t)
    {
      if t in w.pending && t != ticket {
        assert PendingOk(w, t);
        OpenedKeepsContinuation(w, ticket, t, out.ctl);
      }
    }
    forall t, u | OpensNow(v, t) && OpensNow(v, u)
      ensures t == u
    {
      assert t in w.pending ==> OpensNow(w, t);
      assert u in w.pending ==> OpensNow(w, u);
    }
  }

  // ---------- Who is responsible for an unsettled view ----------

  lemma CoveredKeepsResponsibility(w: World, out: Out)
    requires ResponsibilityInv(w) && RequestsInv(w)
    requires SubmittingCovered(w.ctl, out.ctl, out.next) && RunningCovered(w.ctl, out.ctl, out.next)
    ensures ResponsibilityInv(Apply(w, out))
  {
    var v := Apply(w, out);
    if out.ctl.view.phase == Submitting {
      if NextDrives(out.ctl, out.next) {
        assert DrivesNow(v, w.tickets);
      } else {
        var t :| DrivesNow(w, t);
        assert PendingOk(w, t);
        assert DrivesNow(v, t);
      }
    }
    if out.ctl.view.phase == Running && out.ctl.unsubscribe.None? {
      if NextReconciles(out.ctl, out.next) {
        assert ReconcilesNow(v, w.tickets);
      } else {
        var t :| ReconcilesNow(w, t);
        assert PendingOk(w, t);
        assert ReconcilesNow(v, t);
      }
    }
  }

  lemma AnswerKeepsResponsibility(w: World, ticket: nat, reply: Reply, out: Out)
    requires ResponsibilityInv(w) && RequestsInv(w) && ticket in w.pending
    requires AnswerCovered(w.ctl, w.pending[ticket], out)
    ensures ResponsibilityInv(Apply(Receive(w, ticket, reply), out))
  {
    var v := Apply(Receive(w, ticket, reply), out);
    if out.ctl.view.phase == Submitting {
      if NextDrives(out.ctl, out.next) {
        assert DrivesNow(v, w.tickets);
      } else {
        var t :| DrivesNow(w, t);
        assert PendingOk(w, t);
        assert DrivesNow(v, t);
      }
    }
    if out.ctl.view.phase == Running && out.ctl.unsubscribe.None? {
      if NextReconciles(out.ctl, out.next) {
        assert ReconcilesNow(v, w.tickets);
      } else {
        var t :| ReconcilesNow(w, t);
        assert PendingOk(w, t);
        assert ReconcilesNow(v, t);
      }
    }
  }

  // ---------- The transcript pane ----------

  lemma BeginKeepsHistory(c: Ctl, command: Command)
    requires Begin(c, command).Success?
    ensures SameHistory(c, Begin(c, command).value.ctl)
  {
    hide BoundedHistory;
  }

  lemma DeliveryKeepsPane(w: World, out: Out)
    requires w.pane == Render(w.ctl.log.rows) && Delivers(w.ctl, out)
    ensures Apply(w, out).pane == Render(out.ctl.log.rows)
  {
  }

  // ---------- Every step keeps the invariant ----------

  lemma CallKeepsInv(w: World, command: Command)
    requires WorldInv(w)
    ensures WorldInv(Step(w, Call(command)))
  {
    hide CoreInv, LedgerInv, RequestsInv, ResponsibilityInv, Begin, Compatible, ContinuationOk,
      SubmittingCovered, RunningCovered;
    match Begin(w.ctl, command) {
      case Failure(_) =>
      case Success(begun) =>
        CursorIsKnown(w);
        BeginKeepsCore(w.ctl, command);
        BeginKeepsLedger(w.ctl, command, w.facts);
        BeginIsCompatible(w.ctl, command);
        BeginIsCovered(w.ctl, command);
        BeginKeepsHistory(w.ctl, command);
        if begun.next.AwaitPage? {
          BeginAsksForFirstPage(w.ctl, command);
        }
        var out := Out(begun.ctl, Some(begun.next), Nothing);
        CompatibleKeepsRequests(w, out);
        CoveredKeepsResponsibility(w, out);
    }
  }

  lemma CursorIsKnown(w: World)
    requires WorldInv(w)
    ensures w.ctl.older.Some? ==> w.ctl.older.value.id < w.ctl.cursors
  {
  }

  lemma BeginAsksForFirstPage(c: Ctl, command: Command)
    requires Begin(c, command).Success? && Begin(c, command).value.next.AwaitPage?
    ensures RowsFacts(Begin(c, command).value.next.rows) == {}
  {
    hide BoundedHistory;
  }

  lemma PageAsksKnownRows(c: Ctl, k: Continuation, reply: Reply, facts: set<Fact>)
    requires k.AwaitPage? ==> RowsFacts(k.rows) <= facts
    requires ReplyFacts(reply, k.lease.scope.workspaceId) <= facts
    ensures var next := Resume(c, k, reply).next;
            next.Some? && next.value.AwaitPage? ==> RowsFacts(next.value.rows) <= facts
  {
    hide BoundedHistory, Verify, AsRun, FinishOpen;
    if k.AwaitPage? && reply.PageReply? {
      var more := if reply.page.hasMore then reply.page.nextOffset else None;
      FinishOpenShows(c, k.sessionId, k.rows + reply.page.rows, more);
      RowsFactsAppend(k.rows, reply.page.rows);
    }
  }

  lemma RunAnswerKeepsInv(w: World, ticket: nat, reply: Reply)
    requires WorldInv(w) && ticket in w.pending
    requires !Opening(w.pending[ticket]) || !IsCurrent(w.ctl, w.pending[ticket])
    ensures WorldInv(Step(w, Answer(ticket, reply)))
  {
    hide CoreInv, LedgerInv, ResponsibilityInv, Resume, Compatible, ContinuationOk, AnswerCovered,
      NextOk, Delivers, ReplyFacts, RowsFacts, Informed;
    var k, out := w.pending[ticket], Resume(w.ctl, w.pending[ticket], reply);
    var received := Receive(w, ticket, reply);
    assert PendingOk(w, ticket);
    FactsGrow(w, ticket, reply);
    ResumeKeepsCore(w.ctl, k, reply);
    ResumeKeepsLedger(w.ctl, k, reply, received.facts);
    PageAsksKnownRows(w.ctl, k, reply, received.facts);
    ReceiveKeepsRequests(w, ticket, reply);
    AnswerIsCompatible(w, ticket, reply);
    CompatibleKeepsRequests(received, out);
    AnswerKeepsResponsibility(w, ticket, reply, out);
    DeliveryKeepsPane(received, out);
  }

  lemma FactsGrow(w: World, ticket: nat, reply: Reply)
    requires LedgerInv(w.ctl, w.facts) && ticket in w.pending
    ensures LedgerInv(w.ctl, w.facts + ReplyFacts(reply, Asked(w, ticket)))
  {
    TruthMonotone(w.ctl, w.facts, w.facts + ReplyFacts(reply, Asked(w, ticket)));
  }

  /** Any answer that does not open something is compatible with the rest. */
  lemma AnswerIsCompatible(w: World, ticket: nat, reply: Reply)
    requires WorldInv(w) && ticket in w.pending
    requires !Opening(w.pending[ticket]) || !IsCurrent(w.ctl, w.pending[ticket])
    ensures var k, out := w.pending[ticket], Resume(w.ctl, w.pending[ticket], reply);
            && Compatible(w.ctl, out.ctl) && NextOk(out.ctl, out.next)
            && AnswerCovered(w.ctl, k, out) && Delivers(w.ctl, out)
            && (out.next.Some? ==> !Opening(out.next.value))
  {
    hide CoreInv, LedgerInv, ResponsibilityInv, Resume, AnswerCovered, SameHistory;
    var k := w.pending[ticket];
    assert PendingOk(w, ticket);
    match k {
      case AwaitCreate(_, _) => CreateIsCovered(w.ctl, k, reply); SameIsCompatible(w.ctl);
      case AwaitPage(_, _, _, _, _) => PageIsCovered(w.ctl, k, reply); SameIsCompatible(w.ctl);
      case AwaitRecover(_, _) => RecoverIsCovered(w.ctl, k, reply); SameIsCompatible(w.ctl);
      case AwaitOlder(_, _, _, _) => OpeningHasNoCursor(w); OlderIsCovered(w.ctl, k, reply);
      case _ => RunReplyIsCovered(w.ctl, k, reply);
    }
  }

  lemma SameIsCompatible(c: Ctl)
    ensures Compatible(c, c)
  {
  }

  /** While something is being opened there is no paging cursor: only an opening
      request can keep a view without a run in the submitting phase. */
  lemma OpeningHasNoCursor(w: World)
    requires WorldInv(w)
    ensures w.ctl.view.runId.None? && w.ctl.view.phase == Submitting ==> w.ctl.older.None?
  {
    if w.ctl.view.runId.None? && w.ctl.view.phase == Submitting {
      var t :| DrivesNow(w, t);
      assert PendingOk(w, t);
    }
  }

  lemma OpeningAnswerKeepsInv(w: World, ticket: nat, reply: Reply)
    requires WorldInv(w) && OpensNow(w, ticket)
    ensures WorldInv(Step(w, Answer(ticket, reply)))
  {
    hide CoreInv, LedgerInv, ResponsibilityInv, Resume, ContinuationOk, AnswerCovered,
      Delivers, ReplyFacts, RowsFacts, Informed, CursorStep;
    var k, out := w.pending[ticket], Resume(w.ctl, w.pending[ticket], reply);
    var received := Receive(w, ticket, reply);
    assert PendingOk(w, ticket);
    FactsGrow(w, ticket, reply);
    ResumeKeepsCore(w.ctl, k, reply);
    ResumeKeepsLedger(w.ctl, k, reply, received.facts);
    PageAsksKnownRows(w.ctl, k, reply, received.facts);
    match k {
      case AwaitCreate(_, _) => CreateIsCovered(w.ctl, k, reply);
      case AwaitPage(_, _, _, _, _) => PageIsCovered(w.ctl, k, reply);
      case AwaitRecover(_, _) => RecoverIsCovered(w.ctl, k, reply);
    }
    OpenedKeepsRequests(w, ticket, reply, out);
    AnswerKeepsResponsibility(w, ticket, reply, out);
    DeliveryKeepsPane(received, out);
  }

  lemma StreamStepKeepsInv(w: World, out: Out)
    requires WorldInv(w) && CoreInv(out.ctl) && LedgerInv(out.ctl, w.facts)
    requires Compatible(w.ctl, out.ctl) && NextOk(out.ctl, out.next)
    requires SubmittingCovered(w.ctl, out.ctl, out.next) && RunningCovered(w.ctl, out.ctl, out.next)
    requires out.next.Some? ==> out.next.value.AwaitReconcile?
    requires out.delivery == Nothing && SameHistory(w.ctl, out.ctl)
    ensures WorldInv(Apply(w, out))
  {
    hide CoreInv, LedgerInv, RequestsInv, ResponsibilityInv, Compatible, NextOk, SubmittingCovered, RunningCovered;
    CompatibleKeepsRequests(w, out);
    CoveredKeepsResponsibility(w, out);
  }

  lemma StreamedKeepsInv(w: World, index: nat, event: StreamEvent)
    requires WorldInv(w)
    ensures WorldInv(Step(w, Streamed(index, event)))
  {
    hide LedgerInv, RequestsInv, ResponsibilityInv, Compatible, SubmittingCovered, RunningCovered;
    if index < |w.ctl.subscriptions| {
      OnEventKeepsCore(w.ctl, index, event);
      OnEventKeepsLedger(w.ctl, index, event, w.facts);
      EventIsCovered(w.ctl, index, event);
      StreamStepKeepsInv(w, OnEvent(w.ctl, index, event));
    }
  }

  lemma StreamLostKeepsInv(w: World, index: nat, code: Code)
    requires WorldInv(w)
    ensures WorldInv(Step(w, StreamLost(index, code)))
  {
    hide LedgerInv, RequestsInv, ResponsibilityInv, Compatible, SubmittingCovered, RunningCovered;
    if index < |w.ctl.subscriptions| {
      OnInterruptedKeepsCore(w.ctl, index, code);
      OnInterruptedKeepsLedger(w.ctl, index, code, w.facts);
      InterruptionIsCovered(w.ctl, index, code);
      StreamStepKeepsInv(w, OnInterrupted(w.ctl, index, code));
    }
  }

  /** A new epoch makes every request in flight stale. */
  lemma NewEpochKeepsInv(w: World, d: Ctl)
    requires WorldInv(w) && CoreInv(d) && LedgerInv(d, w.facts)
    requires d.epoch > w.ctl.epoch && d.view.phase == Idle && SameHistory(w.ctl, d)
    ensures WorldInv(w.(ctl := d))
  {
    hide CoreInv, LedgerInv;
    var v := w.(ctl := d);
    forall t | t in v.pending
      ensures PendingOk(v, t) && !OpensNow(v, t)
    {
      assert PendingOk(w, t);
    }
  }

  lemma RetargetedKeepsInv(w: World, scope: ClientScope)
    requires WorldInv(w)
    ensures WorldInv(Step(w, Retargeted(scope)))
  {
    hide CoreInv, LedgerInv, RequestsInv, ResponsibilityInv;
    if Retarget(w.ctl, scope).Success? {
      RetargetKeepsCore(w.ctl, scope);
      RetargetKeepsLedger(w.ctl, scope, w.facts);
      NewEpochKeepsInv(w, Retarget(w.ctl, scope).value);
    }
  }

  lemma ClosedKeepsInv(w: World)
    requires WorldInv(w)
    ensures WorldInv(Step(w, Closed))
  {
    hide CoreInv, LedgerInv, RequestsInv, ResponsibilityInv;
    CloseKeepsCore(w.ctl);
    CloseKeepsLedger(w.ctl, w.facts);
    NewEpochKeepsInv(w, Close(w.ctl));
  }

  lemma StepKeepsInv(w: World, e: Event)
    requires WorldInv(w)
    ensures WorldInv(Step(w, e))
  {
    hide WorldInv, Step;
    match e {
      case Call(command) => CallKeepsInv(w, command);
      case Retargeted(scope) => RetargetedKeepsInv(w, scope);
      case Closed => ClosedKeepsInv(w);
      case Answer(ticket, reply) =>
        if OpensNow(w, ticket) {
          OpeningAnswerKeepsInv(w, ticket, reply);
        } else if ticket in w.pending {
          RunAnswerKeepsInv(w, ticket, reply);
        } else {
          UnknownTicket(w, ticket, reply);
        }
      case Streamed(index, event) => StreamedKeepsInv(w, index, event);
      case StreamLost(index, code) => StreamLostKeepsInv(w, index, code);
    }
  }

  lemma UnknownTicket(w: World, ticket: nat, reply: Reply)
    requires ticket !in w.pending
    ensures Step(w, Answer(ticket, reply)) == w
  {
  }

  /** The invariant holds in every state of every run. */
  lemma {:induction false} RunKeepsInv(w: World, events: seq<Event>)
    requires WorldInv(w)
    ensures WorldInv(After(w, events))
    decreases |events|
  {
    hide WorldInv, Step;
    if events != [] {
      StepKeepsInv(w, events[0]);
      RunKeepsInv(Step(w, events[0]), events[1..]);
    }
  }
}
