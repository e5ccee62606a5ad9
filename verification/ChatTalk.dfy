/** One chat pane together with its controller: which message the answer that is
    being written belongs to. */
module ChatTalk {
  import opened Wrappers
  import opened JsText
  import opened ConfirmedHistory
  import opened ConversationTypes
  import opened ConversationRun
  import opened ConversationInvariants
  import opened ConversationLedger
  import ConversationWorld
  import ConversationTheorems
  import HistoryPane

  type World = ConversationWorld.World
  type Pane = HistoryPane.Pane

  /** A message shown in the pane, with the serial of its send if the controller
      accepted it. */
  datatype Message = Message(text: Text, send: Option<nat>)

  datatype Chat = Chat(world: World, pane: Pane, asked: seq<Message>)

  /** The user asks or controls; replies and stream callbacks arrive. */
  datatype Event =
    | Ask(payload: Text, key: Id)
    | Occurs(e: ConversationWorld.Event)

  /** What does not open, recover, page, retarget or close a conversation. */
  predicate Ordinary(e: ConversationWorld.Event) {
    match e
    case Call(command) =>
      command.Retry? || command.Reconnect? || command.Stop? || command.RefreshStatus? || command.Checkpoint?
    case Retargeted(_) => false
    case Closed => false
    case _ => true
  }

  function Start(scope: Scope): Chat {
    Chat(ConversationWorld.Start(scope), HistoryPane.Pane(scope, 0, [], None, None, false, false, false), [])
  }

  function Asked(j: Chat, payload: Text, key: Id): Chat {
    var shown := HistoryPane.SendTurn(j.pane, payload);
    var command := Send(payload, key, None);
    if Begin(j.world.ctl, command).Failure? then
      Chat(j.world, HistoryPane.SendFailed(shown, shown.generation), j.asked + [Message(payload, None)])
    else
      var world := ConversationWorld.Step(j.world, ConversationWorld.Call(command));
      Chat(world, HistoryPane.Changed(shown, world.ctl.view),
           j.asked + [Message(payload, Some(j.world.ctl.log.sends))])
  }

  function Step(j: Chat, e: Event): Chat {
    match e
    case Ask(payload, key) => if HistoryPane.MaySend(j.pane.busy, payload) then Asked(j, payload, key) else j
    case Occurs(event) =>
      if Ordinary(event) then
        var world := ConversationWorld.Step(j.world, event);
        j.(world := world, pane := HistoryPane.Changed(j.pane, world.ctl.view))
      else
        j
  }

  function After(j: Chat, events: seq<Event>): Chat
    decreases |events|
  {
    if events == [] then j else After(Step(j, events[0]), events[1..])
  }

  // ---------- The active request through ordinary steps ----------

  ghost predicate SameRequest(c: Ctl, d: Ctl) {
    d.scope == c.scope && d.request == c.request && d.log.sends == c.log.sends
  }

  predicate OrdinaryRequest(k: Continuation) {
    !k.AwaitPage? && !k.AwaitOlder? && !k.AwaitRecover?
  }

  lemma ConfirmKeepsRequest(c: Ctl, run: Run)
    ensures SameRequest(c, Confirm(c, run))
  {
    hide BoundedHistory;
  }

  lemma AttachKeepsRequest(c: Ctl, lease: Lease, run: Run, withSession: bool)
    ensures SameRequest(c, ShowAndAttach(c, lease, run, withSession))
  {
    hide PhaseOf;
  }

  lemma SettleKeepsRequest(c: Ctl, lease: Lease, run: Run, withSession: bool)
    ensures SameRequest(c, Settle(c, lease, run, withSession))
  {
    hide Confirm, ShowAndAttach;
    ConfirmKeepsRequest(c, run);
    AttachKeepsRequest(Confirm(c, run), lease, run, withSession);
  }

  lemma ControlReplyKeepsRequest(c: Ctl, k: Continuation, reply: Reply)
    requires k.AwaitReconnect? || k.AwaitCancel? || k.AwaitCancelReadback? || k.AwaitCheckpointReadback?
    ensures SameRequest(c, Resume(c, k, reply).ctl)
    ensures var next := Resume(c, k, reply).next; next.Some? ==> OrdinaryRequest(next.value)
  {
    hide Settle, Verify, AsRun, ReadbackCode, Terminal;
    var sessionId := if k.AwaitReconnect? then c.view.sessionId else Some(k.sessionId);
    if !reply.Refused? && Verify(reply, k.lease.scope, k.runId, sessionId).Success? {
      var run := Verify(reply, k.lease.scope, k.runId, sessionId).value;
      SettleKeepsRequest(c, k.lease, run, true);
      SettleKeepsRequest(c, k.lease, run, false);
    }
  }

  lemma CheckpointReplyKeepsRequest(c: Ctl, k: Continuation, reply: Reply)
    requires k.AwaitCheckpoint?
    ensures SameRequest(c, Resume(c, k, reply).ctl)
    ensures var next := Resume(c, k, reply).next; next.Some? ==> OrdinaryRequest(next.value)
  {
    hide Settle, Verify, AsRun, PhaseOf;
    if !reply.Refused? && Verify(reply, k.lease.scope, k.runId, Some(k.sessionId)).Success? {
      var run := Verify(reply, k.lease.scope, k.runId, Some(k.sessionId)).value;
      SettleKeepsRequest(c, k.lease, run, true);
      SettleKeepsRequest(c.(markersRequired := c.markersRequired + 1), k.lease, run, true);
    }
  }

  lemma ApplyRefreshKeepsRequest(c: Ctl, lease: Lease, run: Run)
    ensures SameRequest(c, ApplyRefresh(c, lease, run))
  {
    hide Confirm, ShowAndAttach, Detach, PhaseOf, Terminal;
    var d := Confirm(c, run);
    ConfirmKeepsRequest(c, run);
    DetachKeepsRequest(d);
    AttachKeepsRequest(Detach(d), lease, run, true);
    AttachKeepsRequest(Detach(d).(markersRequired := UNKNOWN_MARKERS), lease, run, true);
  }

  lemma DetachKeepsRequest(c: Ctl)
    ensures SameRequest(c, Detach(c))
  {
  }

  lemma RefreshReplyKeepsRequest(c: Ctl, k: Continuation, reply: Reply)
    requires k.AwaitRefresh?
    ensures SameRequest(c, Resume(c, k, reply).ctl) && Resume(c, k, reply).next.None?
  {
    hide ApplyRefresh, Verify, AsRun, IsReadbackIssue, Detach;
    DetachKeepsRequest(c);
    if !reply.Refused? && Verify(reply, k.lease.scope, k.runId, Some(k.sessionId)).Success? {
      ApplyRefreshKeepsRequest(c, k.lease, Verify(reply, k.lease.scope, k.runId, Some(k.sessionId)).value);
    }
  }

  lemma ApplyReconcileKeepsRequest(c: Ctl, run: Run)
    ensures SameRequest(c, ApplyReconcile(c, run))
  {
    hide BoundedHistory, PhaseOf;
  }

  lemma ReconcileReplyKeepsRequest(c: Ctl, k: Continuation, reply: Reply)
    requires k.AwaitReconcile?
    ensures SameRequest(c, Resume(c, k, reply).ctl) && Resume(c, k, reply).next.None?
  {
    hide ApplyReconcile, AsRun;
    if !reply.Refused? && AsRun(reply, k.lease.scope, Some(k.runId)).Success? {
      ApplyReconcileKeepsRequest(c, AsRun(reply, k.lease.scope, Some(k.runId)).value);
    }
  }

  lemma CreateReplyKeepsRequest(c: Ctl, k: Continuation, reply: Reply)
    requires k.AwaitCreate?
    ensures SameRequest(c, Resume(c, k, reply).ctl)
    ensures var next := Resume(c, k, reply).next; next.Some? ==> OrdinaryRequest(next.value)
  {
    hide AsRun, PhaseOf;
  }

  lemma ReplyKeepsRequest(c: Ctl, k: Continuation, reply: Reply)
    requires OrdinaryRequest(k)
    ensures SameRequest(c, Resume(c, k, reply).ctl)
    ensures var next := Resume(c, k, reply).next; next.Some? ==> OrdinaryRequest(next.value)
  {
    hide Resume;
    if k.AwaitCreate? {
      CreateReplyKeepsRequest(c, k, reply);
    } else if k.AwaitRefresh? {
      RefreshReplyKeepsRequest(c, k, reply);
    } else if k.AwaitReconcile? {
      ReconcileReplyKeepsRequest(c, k, reply);
    } else if k.AwaitCheckpoint? {
      CheckpointReplyKeepsRequest(c, k, reply);
    } else {
      ControlReplyKeepsRequest(c, k, reply);
    }
  }

  lemma BeginKeepsRequest(c: Ctl, command: Command)
    requires Begin(c, command).Success? && Ordinary(ConversationWorld.Call(command))
    ensures SameRequest(c, Begin(c, command).value.ctl) && OrdinaryRequest(Begin(c, command).value.next)
    ensures c.request.Some? || c.view.runId.Some?
  {
  }

  lemma CallbackKeepsRequest(c: Ctl, i: nat, event: StreamEvent, code: Code)
    requires i < |c.subscriptions|
    ensures SameRequest(c, OnEvent(c, i, event).ctl) && SameRequest(c, OnInterrupted(c, i, code).ctl)
    ensures OnInterrupted(c, i, code).next.None?
    ensures var next := OnEvent(c, i, event).next; next.Some? ==> OrdinaryRequest(next.value)
  {
    hide Accepts, Fresh;
  }

  // ---------- The invariant ----------

  ghost predicate OrdinaryRequests(w: World) {
    forall t :: t in w.pending ==> OrdinaryRequest(w.pending[t])
  }

  /** Before the first accepted send there is nothing to answer. */
  ghost predicate Untouched(w: World) {
    w.pending == map[] && w.ctl.subscriptions == [] && w.ctl.view.runId.None?
  }

  /** The active request is that of a message that was asked. */
  ghost predicate WasAsked(asked: seq<Message>, request: Request, k: nat) {
    k < |asked| && asked[k] == Message(request.text, Some(request.serial))
  }

  ghost predicate RequestAsked(c: Ctl, asked: seq<Message>) {
    && (c.request.Some? ==> exists k: nat :: WasAsked(asked, c.request.value, k))
    && (forall k :: 0 <= k < |asked| && asked[k].send.Some? ==> asked[k].send.value < c.log.sends)
    && (asked != [] && asked[|asked| - 1].send.Some? ==>
          c.request.Some? && WasAsked(asked, c.request.value, |asked| - 1))
    && (forall i, k :: 0 <= i < k < |asked| && asked[i].send.Some? ==> asked[k].send != asked[i].send)
  }

  ghost predicate PaneOk(p: Pane, view: View, asked: seq<Message>) {
    && p.selected == view.scope && p.pending.None?
    && (p.activeTurn.Some? ==>
          && asked != [] && |p.turns| >= 2 && p.activeTurn == Some(|p.turns| - 1)
          && p.turns[|p.turns| - 2] == HistoryPane.Cell(HistoryPane.Human, asked[|asked| - 1].text)
          && p.turns[|p.turns| - 1].speaker == HistoryPane.Model
          && (p.turns[|p.turns| - 1].text == view.output
              || (asked[|asked| - 1].send.None? && p.turns[|p.turns| - 1].text == [])))
  }

  ghost predicate ChatInv(j: Chat) {
    && ConversationWorld.WorldInv(j.world) && OrdinaryRequests(j.world)
    && (j.world.ctl.request.None? ==> Untouched(j.world))
    && RequestAsked(j.world.ctl, j.asked)
    && PaneOk(j.pane, j.world.ctl.view, j.asked)
  }

  lemma ViewOfScope(w: World)
    requires ConversationWorld.WorldInv(w)
    ensures w.ctl.view.scope == w.ctl.scope
  {
  }

  lemma ChangeKeepsPane(p: Pane, before: View, view: View, asked: seq<Message>)
    requires PaneOk(p, before, asked) && view.scope == before.scope
    ensures PaneOk(HistoryPane.Changed(p, view), view, asked)
  {
  }

  /** An ordinary step keeps the active request; before the first send it does
      nothing. */
  lemma OrdinaryStep(w: World, e: ConversationWorld.Event)
    requires OrdinaryRequests(w) && Ordinary(e) && (w.ctl.request.None? ==> Untouched(w))
    ensures var v := ConversationWorld.Step(w, e);
            SameRequest(w.ctl, v.ctl) && OrdinaryRequests(v) && (w.ctl.request.None? ==> v == w)
  {
    hide Begin, Resume, OnEvent, OnInterrupted, OrdinaryRequest;
    match e {
      case Call(command) =>
        if Begin(w.ctl, command).Success? {
          BeginKeepsRequest(w.ctl, command);
        }
      case Answer(ticket, reply) =>
        if ticket in w.pending {
          ReplyKeepsRequest(w.ctl, w.pending[ticket], reply);
        }
      case Streamed(index, event) =>
        if index < |w.ctl.subscriptions| {
          CallbackKeepsRequest(w.ctl, index, event, RunNotCancelable);
        }
      case StreamLost(index, code) =>
        if index < |w.ctl.subscriptions| {
          LossKeepsRequest(w.ctl, index, code);
        }
    }
  }

  lemma LossKeepsRequest(c: Ctl, i: nat, code: Code)
    requires i < |c.subscriptions|
    ensures SameRequest(c, OnInterrupted(c, i, code).ctl) && OnInterrupted(c, i, code).next.None?
  {
    hide Accepts;
  }

  lemma OccursKeepsInv(j: Chat, e: ConversationWorld.Event)
    requires ChatInv(j) && Ordinary(e)
    ensures ChatInv(Step(j, Occurs(e)))
  {
    hide ConversationWorld.WorldInv, ConversationWorld.Step, OrdinaryRequests, PaneOk, Untouched;
    var v := ConversationWorld.Step(j.world, e);
    ConversationWorld.StepKeepsInv(j.world, e);
    OrdinaryStep(j.world, e);
    ViewOfScope(j.world);
    ViewOfScope(v);
    ChangeKeepsPane(j.pane, j.world.ctl.view, v.ctl.view, j.asked);
  }

  lemma SendChangesRequest(c: Ctl, payload: Text, key: Id)
    requires Begin(c, Send(payload, key, None)).Success?
    ensures var begun := Begin(c, Send(payload, key, None)).value;
            && begun.ctl.scope == c.scope && begun.ctl.log.sends == c.log.sends + 1
            && begun.ctl.request.Some? && begun.ctl.request.value.serial == c.log.sends
            && begun.ctl.request.value.text == payload && OrdinaryRequest(begun.next)
            && begun.ctl.view.output == [] && begun.ctl.view.scope == c.scope
  {
    hide BoundedHistory, SendLimited, SendSession;
  }

  lemma NewMessageIsAsked(asked: seq<Message>, m: Message, c: Ctl, d: Ctl)
    requires RequestAsked(c, asked)
    requires if m.send.None? then d == c
             else && m.send == Some(c.log.sends) && d.log.sends == c.log.sends + 1
                  && d.request.Some? && d.request.value.serial == c.log.sends && d.request.value.text == m.text
    ensures RequestAsked(d, asked + [m])
  {
    var more := asked + [m];
    assert more[|asked|] == m;
    if m.send.Some? {
      assert WasAsked(more, d.request.value, |asked|);
    } else if c.request.Some? {
      var k: nat :| WasAsked(asked, c.request.value, k);
      assert WasAsked(more, c.request.value, k);
    }
  }

  lemma SentPane(p: Pane, view: View, asked: seq<Message>, payload: Text, send: Option<nat>)
    requires PaneOk(p, view, asked) && HistoryPane.MaySend(p.busy, payload)
    ensures var shown := HistoryPane.SendTurn(p, payload);
            var more := asked + [Message(payload, send)];
            && (send.None? ==> PaneOk(HistoryPane.SendFailed(shown, shown.generation), view, more))
            && forall after: View :: after.scope == view.scope && after.output == [] ==> PaneOk(shown, after, more)
  {
  }

  lemma AskKeepsInv(j: Chat, payload: Text, key: Id)
    requires ChatInv(j) && HistoryPane.MaySend(j.pane.busy, payload)
    ensures ChatInv(Asked(j, payload, key))
  {
    hide ConversationWorld.WorldInv, RequestAsked, PaneOk, Begin, OrdinaryRequest;
    var command := Send(payload, key, None);
    var c := j.world.ctl;
    ViewOfScope(j.world);
    if Begin(c, command).Failure? {
      NewMessageIsAsked(j.asked, Message(payload, None), c, c);
      SentPane(j.pane, c.view, j.asked, payload, None);
    } else {
      var w := ConversationWorld.Step(j.world, ConversationWorld.Call(command));
      ConversationWorld.StepKeepsInv(j.world, ConversationWorld.Call(command));
      SendChangesRequest(c, payload, key);
      var m := Message(payload, Some(c.log.sends));
      NewMessageIsAsked(j.asked, m, c, w.ctl);
      SentPane(j.pane, c.view, j.asked, payload, m.send);
      ChangeKeepsPane(HistoryPane.SendTurn(j.pane, payload), w.ctl.view, w.ctl.view, j.asked + [m]);
    }
  }

  lemma {:induction false} RunKeepsInv(j: Chat, events: seq<Event>)
    requires ChatInv(j)
    ensures ChatInv(After(j, events))
    decreases |events|
  {
    hide ChatInv, Asked;
    if events != [] {
      match events[0] {
        case Ask(payload, key) =>
          if HistoryPane.MaySend(j.pane.busy, payload) {
            AskKeepsInv(j, payload, key);
          }
        case Occurs(e) =>
          if Ordinary(e) {
            OccursKeepsInv(j, e);
          }
      }
      RunKeepsInv(Step(j, events[0]), events[1..]);
    }
  }

  /** The run is the owner's answer to the create of this message. */
  ghost predicate Answers(asked: seq<Message>, log: Log, runId: Id, k: nat) {
    && k < |asked| && asked[k].send.Some?
    && asked[k].send.value in log.answers && log.answers[asked[k].send.value] == runId
  }

  lemma StartKeepsInv(scope: Scope)
    ensures ChatInv(Start(scope))
  {
    hide ConversationWorld.WorldInv;
    ConversationWorld.StartInv(scope);
  }

  lemma RunAnswersMessage(j: Chat)
    requires ChatInv(j) && j.asked != [] && j.world.ctl.view.runId.Some?
    ensures exists k: nat :: Answers(j.asked, j.world.ctl.log, j.world.ctl.view.runId.value, k)
                             && (k == |j.asked| - 1 <==> j.asked[|j.asked| - 1].send.Some?)
  {
    hide PaneOk, PagingInv, TruthInv;
    var c := j.world.ctl;
    var last: nat := |j.asked| - 1;
    if j.asked[last].send.Some? {
      assert WasAsked(j.asked, c.request.value, last);
      assert Answers(j.asked, c.log, c.view.runId.value, last);
    } else {
      var k: nat :| WasAsked(j.asked, c.request.value, k);
      assert Answers(j.asked, c.log, c.view.runId.value, k);
    }
  }

  /** In every run of a chat the answer being written is the last cell, under the
      newest message shown, and holds the output in view. The run in view answers a
      message that was asked, and that is the newest one exactly when the controller
      accepted it. */
  lemma OpenAnswerBelongsExactly(scope: Scope, events: seq<Event>)
    ensures var j := After(Start(scope), events);
            var view, log, n := j.world.ctl.view, j.world.ctl.log, |j.pane.turns|;
            j.pane.activeTurn.Some? ==>
              && j.asked != [] && n >= 2 && j.pane.activeTurn == Some(n - 1)
              && var newest := j.asked[|j.asked| - 1];
                 && j.pane.turns[n - 2] == HistoryPane.Cell(HistoryPane.Human, newest.text)
                 && (newest.send.Some? ==> j.pane.turns[n - 1] == HistoryPane.Cell(HistoryPane.Model, view.output))
                 && (view.runId.Some? ==>
                       exists k: nat :: Answers(j.asked, log, view.runId.value, k)
                                        && (k == |j.asked| - 1 <==> newest.send.Some?))
  {
    hide After, ConversationWorld.WorldInv;
    StartKeepsInv(scope);
    RunKeepsInv(Start(scope), events);
    var j := After(Start(scope), events);
    if j.pane.activeTurn.Some? && j.world.ctl.view.runId.Some? {
      RunAnswersMessage(j);
    }
  }
}
