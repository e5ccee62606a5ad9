/** Which session a conversation is in: sends continue the session in view, and a run
    stays in the session it was asked for. */
module ConversationSessions {
  import opened Wrappers
  import opened JsText
  import opened ConfirmedHistory
  import opened ConversationTypes
  import opened SessionHistory
  import opened ConversationRun
  import opened ConversationInvariants
  import opened ConversationLedger
  import opened ConversationWorld
  import opened ConversationTheorems

  // ---------- One step ----------

  /** Within an epoch a view of a run keeps its session. */
  ghost predicate KeepsSession(c: Ctl, d: Ctl) {
    d.epoch > c.epoch || c.view.runId.None? || d.view.sessionId == c.view.sessionId
  }

  /** The run in view is in the session that its send named. */
  ghost predicate InSession(c: Ctl) {
    c.request.Some? && c.request.value.sessionId.Some? && c.view.runId.Some? ==>
      c.view.sessionId == c.request.value.sessionId
  }

  predicate NamesSession(k: Continuation) {
    k.AwaitCancel? || k.AwaitCancelReadback? || k.AwaitRefresh? || k.AwaitCheckpoint? || k.AwaitCheckpointReadback?
  }

  /** A request in flight that named a session named the one in view. */
  ghost predicate AsksInSession(c: Ctl, k: Continuation) {
    NamesSession(k) && IsCurrent(c, k) ==> c.view.sessionId == Some(k.sessionId)
  }

  ghost predicate SameTalk(c: Ctl, d: Ctl) {
    && d.view.sessionId == c.view.sessionId
    && (d.request.None? || (d.request == c.request && d.view.runId == c.view.runId))
  }

  lemma SameTalkKeeps(c: Ctl, d: Ctl)
    requires InSession(c) && SameTalk(c, d)
    ensures InSession(d) && KeepsSession(c, d)
  {
  }

  /** The result of a step: the session is kept and the run stays in it. */
  ghost predicate Stays(c: Ctl, d: Ctl) {
    InSession(d) && KeepsSession(c, d)
  }

  lemma SameTalkStays(c: Ctl, d: Ctl)
    ensures InSession(c) && SameTalk(c, d) ==> Stays(c, d)
  {
  }

  lemma ConfirmIsSameTalk(c: Ctl, run: Run)
    ensures var d := Confirm(c, run); d.view == c.view && d.request == c.request && d.epoch == c.epoch
  {
    hide BoundedHistory;
  }

  lemma SettleStays(c: Ctl, lease: Lease, run: Run, withSession: bool)
    requires InSession(c) && c.view.sessionId == Some(run.sessionId)
    ensures Stays(c, Settle(c, lease, run, withSession))
  {
    hide Confirm, PhaseOf;
    ConfirmIsSameTalk(c, run);
  }

  lemma RaisedSettleStays(c: Ctl, lease: Lease, run: Run)
    requires InSession(c) && c.view.sessionId == Some(run.sessionId)
    ensures Stays(c, Settle(c.(markersRequired := c.markersRequired + 1), lease, run, true))
  {
    hide Confirm, PhaseOf;
    ConfirmIsSameTalk(c.(markersRequired := c.markersRequired + 1), run);
  }

  lemma VerifiedRunIsInSession(reply: Reply, scope: Scope, runId: Id, sessionId: Option<Id>)
    requires !reply.Refused? && Verify(reply, scope, runId, sessionId).Success? && sessionId.Some?
    ensures sessionId == Some(Verify(reply, scope, runId, sessionId).value.sessionId)
  {
    hide AsRun;
  }

  lemma ControlReplyStays(c: Ctl, k: Continuation, reply: Reply)
    requires InSession(c) && ViewInv(c)
    requires k.AwaitReconnect? || k.AwaitCancel? || k.AwaitCancelReadback? || k.AwaitCheckpointReadback?
    requires AsksInSession(c, k)
    ensures Stays(c, Resume(c, k, reply).ctl)
  {
    hide Settle, Verify, AsRun, ReadbackCode, Stays;
    var d := Resume(c, k, reply).ctl;
    var sessionId := if k.AwaitReconnect? then c.view.sessionId else Some(k.sessionId);
    SameTalkStays(c, d);
    if !reply.Refused? && !Stale(c, k.lease, k.runId) && Verify(reply, k.lease.scope, k.runId, sessionId).Success? {
      var run := Verify(reply, k.lease.scope, k.runId, sessionId).value;
      VerifiedRunIsInSession(reply, k.lease.scope, k.runId, sessionId);
      SettleStays(c, k.lease, run, !(k.AwaitCancelReadback? || k.AwaitCheckpointReadback?));
    }
  }

  lemma CheckpointReplyStays(c: Ctl, k: Continuation, reply: Reply)
    requires InSession(c) && k.AwaitCheckpoint? && AsksInSession(c, k)
    ensures Stays(c, Resume(c, k, reply).ctl)
  {
    hide Settle, Verify, AsRun, Stays, PhaseOf;
    var d := Resume(c, k, reply).ctl;
    SameTalkStays(c, d);
    if !reply.Refused? && !Stale(c, k.lease, k.runId) && Verify(reply, k.lease.scope, k.runId, Some(k.sessionId)).Success? {
      var run := Verify(reply, k.lease.scope, k.runId, Some(k.sessionId)).value;
      VerifiedRunIsInSession(reply, k.lease.scope, k.runId, Some(k.sessionId));
      SettleStays(c, k.lease, run, true);
      RaisedSettleStays(c, k.lease, run);
    }
  }

  lemma AttachStays(c: Ctl, lease: Lease, run: Run)
    ensures var d := ShowAndAttach(c, lease, run, true);
            d.request == c.request && d.view.runId == c.view.runId && d.view.sessionId == Some(run.sessionId) && d.epoch == c.epoch
  {
    hide PhaseOf;
  }

  lemma DetachStays(c: Ctl)
    ensures Detach(c).view == c.view && Detach(c).request == c.request && Detach(c).epoch == c.epoch
  {
  }

  lemma ApplyRefreshStays(c: Ctl, lease: Lease, run: Run)
    requires InSession(c) && c.view.sessionId == Some(run.sessionId)
    ensures Stays(c, ApplyRefresh(c, lease, run))
  {
    hide Confirm, ShowAndAttach, Detach, PhaseOf, Terminal;
    var d := Confirm(c, run);
    ConfirmIsSameTalk(c, run);
    DetachStays(d);
    AttachStays(Detach(d), lease, run);
    AttachStays(Detach(d).(markersRequired := UNKNOWN_MARKERS), lease, run);
  }

  lemma RefreshReplyStays(c: Ctl, k: Continuation, reply: Reply)
    requires InSession(c) && k.AwaitRefresh? && AsksInSession(c, k)
    ensures Stays(c, Resume(c, k, reply).ctl)
  {
    hide ApplyRefresh, Detach, Verify, AsRun, IsReadbackIssue, Stays;
    var d := Resume(c, k, reply).ctl;
    DetachStays(c);
    SameTalkStays(c, d);
    if !reply.Refused? && !Stale(c, k.lease, k.runId) && Verify(reply, k.lease.scope, k.runId, Some(k.sessionId)).Success? {
      VerifiedRunIsInSession(reply, k.lease.scope, k.runId, Some(k.sessionId));
      ApplyRefreshStays(c, k.lease, Verify(reply, k.lease.scope, k.runId, Some(k.sessionId)).value);
    }
  }

  lemma ApplyReconcileStays(c: Ctl, run: Run)
    requires InSession(c) && c.view.sessionId == Some(run.sessionId)
    ensures Stays(c, ApplyReconcile(c, run))
  {
    hide Confirm, PhaseOf;
    ConfirmIsSameTalk(c, run);
  }

  lemma ReconcileReplyStays(c: Ctl, k: Continuation, reply: Reply)
    requires InSession(c) && ViewInv(c) && k.AwaitReconcile?
    ensures Stays(c, Resume(c, k, reply).ctl)
  {
    hide ApplyReconcile, AsRun, Stays;
    var d := Resume(c, k, reply).ctl;
    SameTalkStays(c, d);
    if !reply.Refused? && AsRun(reply, k.lease.scope, Some(k.runId)).Success? {
      var run := AsRun(reply, k.lease.scope, Some(k.runId)).value;
      if c.view.sessionId == Some(run.sessionId) {
        ApplyReconcileStays(c, run);
      }
    }
  }

  lemma CreateReplyStays(c: Ctl, lease: Lease, request: Request, reply: Reply)
    requires InSession(c) && (Valid(c, lease) ==> c.view.runId.None? && c.request == Some(request))
    ensures Stays(c, ResumeCreate(c, lease, request, reply).ctl)
  {
    hide AsRun, PhaseOf;
  }

  lemma RecoverReplyStays(c: Ctl, lease: Lease, runId: Id, reply: Reply)
    requires InSession(c) && (Valid(c, lease) ==> c.view.runId.None? && c.request.None?)
    ensures Stays(c, ResumeRecover(c, lease, runId, reply).ctl)
  {
    hide Verify, PhaseOf;
  }

  lemma PageReplyStays(c: Ctl, k: Continuation, reply: Reply)
    requires InSession(c) && k.AwaitPage? && (Valid(c, k.lease) ==> c.view.runId.None? && c.request.None?)
    ensures Stays(c, Resume(c, k, reply).ctl)
  {
    hide Render, VerifiedPairs, Flatten, RunIds, RowsAdmissible, DistinctRuns, OpenedView, PageAdmissible;
  }

  lemma OlderReplyStays(c: Ctl, k: Continuation, reply: Reply)
    requires InSession(c) && k.AwaitOlder?
    ensures Stays(c, Resume(c, k, reply).ctl)
  {
    hide Render, RunIds, RowsAdmissible, DistinctRuns;
  }

  lemma OpeningReplyStays(c: Ctl, k: Continuation, reply: Reply)
    requires InSession(c) && ContinuationOk(c, k) && Opening(k)
    ensures Stays(c, Resume(c, k, reply).ctl)
  {
    hide Stays, InSession, ResumeCreate, ResumePage, ResumeRecover;
    match k {
      case AwaitCreate(lease, request) => CreateReplyStays(c, lease, request, reply);
      case AwaitRecover(lease, runId) => RecoverReplyStays(c, lease, runId, reply);
      case _ => PageReplyStays(c, k, reply);
    }
  }

  lemma ResumeStays(c: Ctl, k: Continuation, reply: Reply)
    requires InSession(c) && ViewInv(c) && ContinuationOk(c, k) && AsksInSession(c, k)
    ensures Stays(c, Resume(c, k, reply).ctl)
  {
    hide Stays, InSession, ViewInv, AsksInSession, ContinuationOk, Resume;
    if Opening(k) {
      OpeningReplyStays(c, k, reply);
    } else if k.AwaitRefresh? {
      RefreshReplyStays(c, k, reply);
    } else if k.AwaitReconcile? {
      ReconcileReplyStays(c, k, reply);
    } else if k.AwaitCheckpoint? {
      CheckpointReplyStays(c, k, reply);
    } else if k.AwaitOlder? {
      OlderReplyStays(c, k, reply);
    } else {
      ControlReplyStays(c, k, reply);
    }
  }

  /** The readback after a refusal asks for the same session. */
  lemma FollowUpAsksTheSame(c: Ctl, k: Continuation, reply: Reply)
    ensures var next := Resume(c, k, reply).next;
            next.Some? && NamesSession(next.value) ==>
              NamesSession(k) && next.value.sessionId == k.sessionId && next.value.lease == k.lease
              && Resume(c, k, reply).ctl == c
  {
    hide AsRun, Verify, Render, VerifiedPairs, RunIds, OpenedView, RowsAdmissible, DistinctRuns, Settle, ApplyRefresh, ApplyReconcile, ApplyRecover, ShowCreated, Subscribe;
  }

  lemma BeginStays(c: Ctl, command: Command)
    requires InSession(c) && Begin(c, command).Success?
    ensures var begun := Begin(c, command).value;
            Stays(c, begun.ctl) && AsksInSession(begun.ctl, begun.next)
  {
    hide BoundedHistory, SendSession, SendLimited, SendIssue;
  }

  lemma EventStays(c: Ctl, i: nat, event: StreamEvent)
    requires InSession(c) && i < |c.subscriptions|
    ensures Stays(c, OnEvent(c, i, event).ctl)
    ensures var next := OnEvent(c, i, event).next; next.Some? ==> next.value.AwaitReconcile?
  {
    hide Accepts, Fresh;
    SameTalkStays(c, OnEvent(c, i, event).ctl);
  }

  lemma LossStays(c: Ctl, i: nat, code: Code)
    requires InSession(c) && i < |c.subscriptions|
    ensures Stays(c, OnInterrupted(c, i, code).ctl) && OnInterrupted(c, i, code).next.None?
  {
    hide Accepts;
    SameTalkStays(c, OnInterrupted(c, i, code).ctl);
  }

  // ---------- Every run ----------

  ghost predicate SessionInv(w: World) {
    InSession(w.ctl) && forall t :: t in w.pending ==> AsksInSession(w.ctl, w.pending[t])
  }

  /** Requests in flight keep asking for the session in view. */
  lemma PendingStays(w: World, d: Ctl, t: nat)
    requires RequestsInv(w) && SessionInv(w) && t in w.pending && KeepsSession(w.ctl, d) && d.epoch >= w.ctl.epoch
    ensures AsksInSession(d, w.pending[t])
  {
    assert PendingOk(w, t);
  }

  lemma StepKeepsSessions(w: World, e: Event)
    requires WorldInv(w) && SessionInv(w)
    ensures SessionInv(Step(w, e))
  {
    hide LedgerInv, ResponsibilityInv, RequestsInv, StreamInv, InSession, KeepsSession, AsksInSession, Begin, Resume,
      ContinuationOk, OnEvent, OnInterrupted, Close, Retarget;
    var v := Step(w, e);
    StepKeepsEpoch(w, e);
    StepStays(w, e);
    forall t | t in v.pending
      ensures AsksInSession(v.ctl, v.pending[t])
    {
      if t in w.pending && v.pending[t] == w.pending[t] {
        PendingStays(w, v.ctl, t);
      } else {
        NewRequestStays(w, e, t);
      }
    }
  }

  lemma StepStays(w: World, e: Event)
    requires WorldInv(w) && SessionInv(w)
    ensures Stays(w.ctl, Step(w, e).ctl)
  {
    hide LedgerInv, ResponsibilityInv, StreamInv, InSession, KeepsSession, AsksInSession, Begin, Resume,
      ContinuationOk, OnEvent, OnInterrupted;
    SameTalkStays(w.ctl, w.ctl);
    match e {
      case Call(command) =>
        if Begin(w.ctl, command).Success? {
          BeginStays(w.ctl, command);
        }
      case Answer(ticket, reply) =>
        if ticket in w.pending {
          assert PendingOk(w, ticket);
          ResumeStays(w.ctl, w.pending[ticket], reply);
        }
      case Streamed(index, event) =>
        if index < |w.ctl.subscriptions| {
          EventStays(w.ctl, index, event);
        }
      case StreamLost(index, code) =>
        if index < |w.ctl.subscriptions| {
          LossStays(w.ctl, index, code);
        }
      case Retargeted(scope) =>
        if Retarget(w.ctl, scope).Success? {
          RetargetStays(w.ctl, scope);
        }
      case Closed => CloseStays(w.ctl);
    }
  }

  lemma RetargetStays(c: Ctl, scope: ClientScope)
    requires Retarget(c, scope).Success?
    ensures Stays(c, Retarget(c, scope).value)
  {
  }

  lemma CloseStays(c: Ctl)
    ensures Stays(c, Close(c))
  {
  }

  lemma NewRequestStays(w: World, e: Event, t: nat)
    requires WorldInv(w) && SessionInv(w)
    requires t in Step(w, e).pending && !(t in w.pending && Step(w, e).pending[t] == w.pending[t])
    ensures AsksInSession(Step(w, e).ctl, Step(w, e).pending[t])
  {
    hide LedgerInv, ResponsibilityInv, CoreInv, InSession, Begin, Resume, ContinuationOk, OnEvent, OnInterrupted, Retarget, Close;
    match e {
      case Call(command) =>
        if Begin(w.ctl, command).Success? {
          BeginStays(w.ctl, command);
        }
      case Answer(ticket, reply) =>
        if ticket in w.pending {
          FollowUpAsksTheSame(w.ctl, w.pending[ticket], reply);
        }
      case Streamed(index, event) =>
        if index < |w.ctl.subscriptions| {
          EventStays(w.ctl, index, event);
        }
      case StreamLost(index, code) =>
        if index < |w.ctl.subscriptions| {
          LossStays(w.ctl, index, code);
        }
      case _ =>
    }
  }

  lemma {:induction false} RunKeepsSessions(w: World, events: seq<Event>)
    requires WorldInv(w) && SessionInv(w)
    ensures SessionInv(After(w, events))
    decreases |events|
  {
    hide WorldInv, SessionInv, Step;
    if events != [] {
      StepKeepsSessions(w, events[0]);
      StepKeepsInv(w, events[0]);
      RunKeepsSessions(Step(w, events[0]), events[1..]);
    }
  }

  // ---------- Theorems ----------

  /** In every reachable state the run of a send that continues a session is shown in
      that session, and nothing in the same epoch moves a run to another one. */
  lemma RunsStayInTheirSession(scope: Scope, events: seq<Event>, e: Event)
    ensures var c, d := After(Start(scope), events).ctl, Step(After(Start(scope), events), e).ctl;
            && (c.request.Some? && c.request.value.sessionId.Some? && c.view.runId.Some? ==>
                  c.view.sessionId == c.request.value.sessionId)
            && (c.view.runId.Some? && d.epoch == c.epoch ==> d.view.sessionId == c.view.sessionId)
  {
    hide After, WorldInv, Step;
    StartInv(scope);
    EveryRunKeepsInv(scope, events);
    RunKeepsSessions(Start(scope), events);
    StepStays(After(Start(scope), events), e);
  }

  /** An accepted send is recorded with its text and key, and with the session it
      continues: the one it names; or else, over a completed or canceled view, the
      one in view; or else none. */
  lemma SendsContinueTheirSession(scope: Scope, events: seq<Event>, text: Text, key: Id, sessionId: Option<Id>)
    requires Begin(After(Start(scope), events).ctl, Send(text, key, sessionId)).Success?
    ensures var c := After(Start(scope), events).ctl;
            var log := Step(After(Start(scope), events), Call(Send(text, key, sessionId))).ctl.log;
            && log.creates != [] && log.sends == c.log.sends + 1
            && var request := log.creates[|log.creates| - 1].request;
               && log.creates[..|log.creates| - 1] == c.log.creates
               && request.text == text && request.key == key && request.serial == c.log.sends
               && (sessionId.Some? && sessionId.value != "" ==> request.sessionId == sessionId)
               && (sessionId == Some("") || (sessionId.None? && c.view.phase == Idle) ==> request.sessionId.None?)
               && (sessionId.None? && c.view.phase in {Completed, Canceled} && c.view.sessionId != Some("") ==>
                     request.sessionId == c.view.sessionId)
  {
    hide After, BoundedHistory;
  }
}
