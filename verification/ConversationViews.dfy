/** What a view can look like in a reachable state: its phase follows the status that
    the owner gave, and so which user actions are open follows from the phase. */
module ConversationViews {
  import opened Wrappers
  import opened JsText
  import opened ConfirmedHistory
  import opened ConversationTypes
  import opened SessionHistory
  import opened ConversationRun
  import opened ConversationInvariants
  import opened ConversationLedger
  import opened ConversationWorld
  import opened ConversationTheorems
  import opened ConversationSessions

  /** The phase that a status is shown as. */
  ghost predicate ShownAs(status: Status, phase: Phase) {
    && (phase == Completed <==> status == StatusCompleted)
    && (phase == Failed <==> status == StatusFailed)
    && (phase == Canceled <==> status == StatusCanceled)
    && (phase == Blocked <==> status in {StatusBlocked, StatusBudgetLimited, StatusParked})
    && (phase == Paused <==> status in {StatusPaused, StatusPausedNoProgress})
    && (phase == RecoveryRequired <==> status == StatusPausedRecoveryRequired)
    && (phase == Running <==> status == StatusResuming || status.OtherStatus?)
  }

  lemma PhaseIsShown(status: Status)
    ensures ShownAs(status, PhaseOf(status))
    ensures PhaseOf(status) !in {Idle, Submitting, Interrupted}
  {
  }

  // ---------- The shape of a view ----------

  /** The view shows a run, and shows it as its status says; except that a completed
      run whose text is still to be read back is shown as running, and that an opened
      session whose newest run cannot be continued asks for recovery. */
  ghost predicate ShowsStatus(view: View, asked: bool) {
    && view.runId.Some? && view.canonicalStatus.Some?
    && (|| ShownAs(view.canonicalStatus.value, view.phase)
        || (view.phase == Running && view.canonicalStatus == Some(StatusCompleted))
        || (view.phase == RecoveryRequired && !asked))
  }

  ghost predicate ViewShape(c: Ctl) {
    && (c.view.runId.None? ==> c.markersRequired == 0 && !c.awaitingMarker)
    && (c.view.phase !in {Idle, Submitting, Interrupted} ==> ShowsStatus(c.view, c.request.Some?))
    && (c.view.phase == Idle ==> c.view.runId.None? && c.request.None?)
    && (c.view.phase == Interrupted ==> c.view.errorCode.Some?)
    && (c.older.Some? ==> c.view.sessionId == Some(c.older.value.sessionId))
  }

  lemma InitHasShape(scope: Scope)
    ensures ViewShape(Init(scope))
  {
  }

  lemma InterruptedHasShape(c: Ctl)
    requires ViewShape(c)
    ensures forall code :: ViewShape(Interrupt(c, code)) && ViewShape(FailReconcile(c, code))
  {
  }

  lemma AttachHasShape(c: Ctl, lease: Lease, run: Run, bound: bool)
    requires c.view.runId.Some? && (c.older.Some? ==> c.older.value.sessionId == run.sessionId)
    requires c.view.sessionId == Some(run.sessionId)
    ensures ViewShape(ShowAndAttach(c, lease, run, bound))
  {
    hide PhaseOf;
    PhaseIsShown(run.status);
  }

  lemma ConfirmKeepsShape(c: Ctl, run: Run)
    ensures var d := Confirm(c, run);
            && d.view == c.view && d.older == c.older && d.request == c.request
            && d.markersRequired == c.markersRequired && d.awaitingMarker == c.awaitingMarker
  {
    hide BoundedHistory;
  }

  lemma SettleHasShape(c: Ctl, lease: Lease, run: Run, bound: bool)
    requires ViewShape(c) && c.view.runId.Some? && c.view.sessionId == Some(run.sessionId)
    ensures ViewShape(Settle(c, lease, run, bound))
  {
    hide Confirm, ShowAndAttach;
    ConfirmKeepsShape(c, run);
    AttachHasShape(Confirm(c, run), lease, run, bound);
  }

  lemma ControlReplyHasShape(c: Ctl, k: Continuation, reply: Reply)
    requires ViewShape(c) && ViewInv(c)
    requires k.AwaitReconnect? || k.AwaitCancel? || k.AwaitCancelReadback? || k.AwaitCheckpointReadback?
    requires AsksInSession(c, k)
    ensures ViewShape(Resume(c, k, reply).ctl)
  {
    hide Settle, Verify, AsRun, ReadbackCode, ViewShape, FailReconcile;
    InterruptedHasShape(c);
    var sessionId := if k.AwaitReconnect? then c.view.sessionId else Some(k.sessionId);
    if !reply.Refused? && !Stale(c, k.lease, k.runId) && Verify(reply, k.lease.scope, k.runId, sessionId).Success? {
      VerifiedRunIsInSession(reply, k.lease.scope, k.runId, sessionId);
      var run := Verify(reply, k.lease.scope, k.runId, sessionId).value;
      SettleHasShape(c, k.lease, run, !(k.AwaitCancelReadback? || k.AwaitCheckpointReadback?));
    }
  }

  lemma CheckpointReplyHasShape(c: Ctl, k: Continuation, reply: Reply)
    requires ViewShape(c) && k.AwaitCheckpoint? && AsksInSession(c, k)
    ensures ViewShape(Resume(c, k, reply).ctl)
  {
    hide Settle, Verify, AsRun, PhaseOf, FailReconcile;
    InterruptedHasShape(c);
    if !reply.Refused? && !Stale(c, k.lease, k.runId) && Verify(reply, k.lease.scope, k.runId, Some(k.sessionId)).Success? {
      VerifiedRunIsInSession(reply, k.lease.scope, k.runId, Some(k.sessionId));
      var run := Verify(reply, k.lease.scope, k.runId, Some(k.sessionId)).value;
      SettleHasShape(c, k.lease, run, true);
      SettleHasShape(c.(markersRequired := c.markersRequired + 1), k.lease, run, true);
    }
  }

  lemma DetachKeepsShape(c: Ctl)
    ensures var d := Detach(c); d.view == c.view && d.older == c.older && d.request == c.request
  {
  }

  lemma ApplyRefreshHasShape(c: Ctl, lease: Lease, run: Run)
    requires ViewShape(c) && c.view.runId.Some? && c.view.sessionId == Some(run.sessionId)
    ensures ViewShape(ApplyRefresh(c, lease, run))
  {
    hide Confirm, ShowAndAttach, Detach, Terminal, PhaseOf;
    PhaseIsShown(run.status);
    ConfirmKeepsShape(c, run);
    var d := Detach(Confirm(c, run));
    DetachKeepsShape(Confirm(c, run));
    AttachHasShape(d, lease, run, true);
    AttachHasShape(d.(markersRequired := UNKNOWN_MARKERS), lease, run, true);
  }

  lemma FailedRefreshHasShape(c: Ctl)
    requires ViewShape(c)
    ensures forall code :: ViewShape(FailRefresh(c, code))
  {
    hide IsReadbackIssue;
  }

  lemma RefreshReplyHasShape(c: Ctl, k: Continuation, reply: Reply)
    requires ViewShape(c) && ViewInv(c) && k.AwaitRefresh? && AsksInSession(c, k)
    ensures ViewShape(Resume(c, k, reply).ctl)
  {
    hide ApplyRefresh, FailRefresh, Verify, AsRun, ViewShape;
    FailedRefreshHasShape(c);
    if !reply.Refused? && !Stale(c, k.lease, k.runId) && Verify(reply, k.lease.scope, k.runId, Some(k.sessionId)).Success? {
      VerifiedRunIsInSession(reply, k.lease.scope, k.runId, Some(k.sessionId));
      ApplyRefreshHasShape(c, k.lease, Verify(reply, k.lease.scope, k.runId, Some(k.sessionId)).value);
    }
  }

  lemma ApplyReconcileHasShape(c: Ctl, run: Run)
    requires ViewShape(c) && c.view.runId.Some? && c.view.sessionId == Some(run.sessionId)
    ensures ViewShape(ApplyReconcile(c, run))
  {
    hide Confirm, PhaseOf, Terminal, CompletionIssue;
    PhaseIsShown(run.status);
    ConfirmKeepsShape(c, run);
  }

  lemma ReconcileReplyHasShape(c: Ctl, k: Continuation, reply: Reply)
    requires ViewShape(c) && ViewInv(c) && k.AwaitReconcile?
    ensures ViewShape(Resume(c, k, reply).ctl)
  {
    hide ApplyReconcile, AsRun, ViewShape, FailReconcile, Interrupt;
    InterruptedHasShape(c);
    if !reply.Refused? && AsRun(reply, k.lease.scope, Some(k.runId)).Success? && !Stale(c, k.lease, k.runId) {
      var run := AsRun(reply, k.lease.scope, Some(k.runId)).value;
      if c.view.sessionId == Some(run.sessionId) {
        ApplyReconcileHasShape(c, run);
      }
    }
  }

  lemma CreateReplyHasShape(c: Ctl, lease: Lease, request: Request, reply: Reply)
    requires ViewShape(c) && (Valid(c, lease) ==> c.view.runId.None? && c.older.None?)
    ensures ViewShape(ResumeCreate(c, lease, request, reply).ctl)
  {
    hide AsRun, PhaseOf, FailReconcile;
    InterruptedHasShape(c);
    if !reply.Refused? && AsRun(reply, lease.scope, None).Success? {
      PhaseIsShown(AsRun(reply, lease.scope, None).value.status);
    }
  }

  lemma RecoverReplyHasShape(c: Ctl, lease: Lease, runId: Id, reply: Reply)
    requires ViewShape(c) && (Valid(c, lease) ==> c.view.runId.None? && c.older.None?)
    ensures ViewShape(ResumeRecover(c, lease, runId, reply).ctl)
  {
    hide Verify, PhaseOf, FailReconcile;
    InterruptedHasShape(c);
    if !reply.Refused? && Verify(reply, lease.scope, runId, None).Success? {
      PhaseIsShown(Verify(reply, lease.scope, runId, None).value.status);
    }
  }

  lemma FinishOpenHasShape(c: Ctl, sessionId: Id, rows: seq<HistoryRow>, more: Option<int>)
    requires ViewShape(c) && c.view.runId.None? && c.request.None?
    ensures ViewShape(FinishOpen(c, sessionId, rows, more).ctl)
  {
    hide Render, VerifiedPairs, Flatten, RunIds;
  }

  lemma PageReplyHasShape(c: Ctl, k: Continuation, reply: Reply)
    requires ViewShape(c) && k.AwaitPage? && (Valid(c, k.lease) ==> c.view.runId.None? && c.request.None?)
    ensures ViewShape(Resume(c, k, reply).ctl)
  {
    hide FinishOpen, RowsAdmissible, DistinctRuns, PageAdmissible, ViewShape, FailReconcile;
    InterruptedHasShape(c);
    if Valid(c, k.lease) && reply.PageReply? {
      FinishOpenHasShape(c, k.sessionId, k.rows + reply.page.rows, if reply.page.hasMore then reply.page.nextOffset else None);
    }
  }

  lemma OlderReplyHasShape(c: Ctl, k: Continuation, reply: Reply)
    requires ViewShape(c) && k.AwaitOlder?
    ensures ViewShape(Resume(c, k, reply).ctl)
  {
    hide Render, RunIds, RowsAdmissible, DistinctRuns;
  }

  lemma ResumeHasShape(c: Ctl, k: Continuation, reply: Reply)
    requires ViewShape(c) && ViewInv(c) && ContinuationOk(c, k) && AsksInSession(c, k)
    ensures ViewShape(Resume(c, k, reply).ctl)
  {
    hide ViewShape, AsksInSession, ResumeCreate, ResumeRecover, ResumePage, ResumeOlder;
    match k {
      case AwaitCreate(lease, request) => CreateReplyHasShape(c, lease, request, reply);
      case AwaitRecover(lease, runId) => RecoverReplyHasShape(c, lease, runId, reply);
      case AwaitPage(_, _, _, _, _) => PageReplyHasShape(c, k, reply);
      case AwaitOlder(_, _, _, _) => OlderReplyHasShape(c, k, reply);
      case AwaitReconcile(_, _) => ReconcileReplyHasShape(c, k, reply);
      case AwaitRefresh(_, _, _, _) => RefreshReplyHasShape(c, k, reply);
      case AwaitCheckpoint(_, _, _, _) => CheckpointReplyHasShape(c, k, reply);
      case _ => ControlReplyHasShape(c, k, reply);
    }
  }

  lemma BeginHasShape(c: Ctl, command: Command)
    requires ViewShape(c) && Begin(c, command).Success?
    ensures ViewShape(Begin(c, command).value.ctl)
  {
    hide BoundedHistory, SendSession, SendLimited, SendIssue;
  }

  lemma EventHasShape(c: Ctl, i: nat, event: StreamEvent)
    requires ViewShape(c) && i < |c.subscriptions|
    ensures ViewShape(OnEvent(c, i, event).ctl)
  {
    hide Fresh;
  }

  lemma LossHasShape(c: Ctl, i: nat, code: Code)
    requires ViewShape(c) && i < |c.subscriptions|
    ensures ViewShape(OnInterrupted(c, i, code).ctl)
  {
    hide Accepts;
  }

  lemma RetargetHasShape(c: Ctl, scope: ClientScope)
    requires Retarget(c, scope).Success?
    ensures ViewShape(Retarget(c, scope).value)
  {
  }

  lemma CloseHasShape(c: Ctl)
    ensures ViewShape(Close(c))
  {
  }

  lemma StepHasShape(w: World, e: Event)
    requires WorldInv(w) && SessionInv(w) && ViewShape(w.ctl)
    ensures ViewShape(Step(w, e).ctl)
  {
    hide LedgerInv, ResponsibilityInv, StreamInv, ViewShape, AsksInSession, InSession, Begin, Resume, ContinuationOk, OnEvent,
      OnInterrupted;
    match e {
      case Call(command) =>
        if Begin(w.ctl, command).Success? {
          BeginHasShape(w.ctl, command);
        }
      case Answer(ticket, reply) =>
        if ticket in w.pending {
          assert PendingOk(w, ticket);
          ResumeHasShape(w.ctl, w.pending[ticket], reply);
        }
      case Streamed(index, event) =>
        if index < |w.ctl.subscriptions| {
          EventHasShape(w.ctl, index, event);
        }
      case StreamLost(index, code) =>
        if index < |w.ctl.subscriptions| {
          LossHasShape(w.ctl, index, code);
        }
      case Retargeted(scope) =>
        if Retarget(w.ctl, scope).Success? {
          RetargetHasShape(w.ctl, scope);
        }
      case Closed => CloseHasShape(w.ctl);
    }
  }

  lemma {:induction false} RunHasShape(w: World, events: seq<Event>)
    requires WorldInv(w) && SessionInv(w) && ViewShape(w.ctl)
    ensures ViewShape(After(w, events).ctl)
    decreases |events|
  {
    hide WorldInv, SessionInv, ViewShape, Step;
    if events != [] {
      StepHasShape(w, events[0]);
      StepKeepsSessions(w, events[0]);
      StepKeepsInv(w, events[0]);
      RunHasShape(Step(w, events[0]), events[1..]);
    }
  }

  lemma EveryRunHasShape(scope: Scope, events: seq<Event>)
    ensures ViewShape(After(Start(scope), events).ctl)
  {
    hide After, WorldInv;
    StartInv(scope);
    InitHasShape(scope);
    RunHasShape(Start(scope), events);
  }

  // ---------- Theorems ----------

  /** In every reachable state the view shows a run as the status that the owner gave
      for it; a view that shows none is idle, being submitted or interrupted, and an
      interruption has a code. */
  lemma PhaseFollowsStatus(scope: Scope, events: seq<Event>)
    ensures var c := After(Start(scope), events).ctl; var view := c.view;
            && (view.phase in {Idle, Submitting, Interrupted} || view.runId.Some?)
            && (view.phase !in {Idle, Submitting, Interrupted} ==> ShowsStatus(view, c.request.Some?))
            && (view.phase == Interrupted ==> view.errorCode.Some?)
  {
    hide After;
    EveryRunHasShape(scope, events);
  }

  /** In every reachable state each user action goes through exactly when the phase, and
      the user's own input, allow it; the run, the session and the cursor that it needs
      are then there. */
  lemma ActionsGoThroughExactly(scope: Scope, events: seq<Event>, command: Command)
    ensures var c := After(Start(scope), events).ctl;
            Begin(c, command).Success?
            <==> match command
                 case Send(text, key, named) =>
                   && !IsBlank(text) && |text| <= 32_768 && IsSafeId(key)
                   && (named.None? || named.value == "" || IsSafeId(named.value))
                   && c.view.phase in {Idle, Completed, Canceled}
                 case Retry => c.view.phase == Interrupted && c.request.Some? && c.view.runId.None?
                 case Reconnect => c.view.phase == Interrupted && c.view.runId.Some?
                 case Stop(operation) => IsSafeId(operation) && c.view.phase in {Running, Paused, RecoveryRequired}
                 case RefreshStatus => c.view.runId.Some?
                 case Checkpoint(action, operation) =>
                   && IsSafeId(operation)
                   && (if action == PauseRun then c.view.phase == Running else c.view.phase in {Paused, RecoveryRequired})
                 case OpenSession(session) => IsSafeId(session)
                 case LoadOlder => c.older.Some?
                 case Recover(run) => IsSafeId(run)
  {
    hide After, WorldInv, BoundedHistory, SendRequest, IsBlank, IsSafeId;
    EveryRunHasShape(scope, events);
    EveryRunKeepsInv(scope, events);
    ViewIsKnown(After(Start(scope), events));
  }

  lemma ViewIsKnown(w: World)
    requires WorldInv(w)
    ensures ViewInv(w.ctl)
  {
  }

  /** An action that does not go through names its reason and changes nothing. */
  lemma RefusalsAreNamed(scope: Scope, events: seq<Event>, command: Command)
    requires Begin(After(Start(scope), events).ctl, command).Failure?
    ensures var w := After(Start(scope), events);
            && Step(w, Call(command)) == w
            && Begin(w.ctl, command).error
               == match command
                  case Send(text, key, named) =>
                    if IsBlank(text) || |text| > 32_768 then MessageInvalid
                    else if !IsSafeId(key) || (named.Some? && named.value != "" && !IsSafeId(named.value)) then RequestIdInvalid
                    else PreviousRunUnresolved
                  case Retry => NotRetryable
                  case Reconnect => ReconnectUnavailable
                  case Stop(operation) => if !IsSafeId(operation) then ControlIdInvalid else StopUnavailable
                  case RefreshStatus => RefreshUnavailable
                  case Checkpoint(action, operation) =>
                    if !IsSafeId(operation) then ControlIdInvalid
                    else if action == PauseRun then PauseUnavailable else ResumeUnavailable
                  case OpenSession(_) => SessionIdInvalid
                  case LoadOlder => OlderHistoryUnavailable
                  case Recover(_) => RunIdInvalid
  {
    hide After, BoundedHistory, SendRequest, IsBlank, IsSafeId;
  }

  /** The view of an action under way: what it keeps of the one before. */
  function ViewWhile(c: Ctl, command: Command, limited: bool): View {
    match command
    case Send(_, _, _) => View(c.scope, Submitting, None, None, [], None, None, limited)
    case Retry => c.view.(phase := Submitting, errorCode := None)
    case Reconnect => c.view.(phase := Submitting, output := [], errorCode := None)
    case Stop(_) => c.view.(phase := Submitting, output := [], errorCode := None)
    case RefreshStatus => c.view
    case Checkpoint(_, _) => c.view.(phase := Submitting, output := [], errorCode := None)
    case OpenSession(_) => View(c.scope, Submitting, None, None, [], None, None, false)
    case LoadOlder => c.view
    case Recover(_) => View(c.scope, Submitting, None, None, [], None, None, false)
  }

  /** The action asks for the run, the session and the page that were in view when it was
      taken, or that it names. */
  ghost predicate AsksFor(c: Ctl, command: Command, d: Ctl, k: Continuation) {
    match command
    case Send(text, key, _) =>
      k.AwaitCreate? && d.request == Some(k.request) && k.request.text == text && k.request.key == key
      && d.log.sends == c.log.sends + 1
    case Retry =>
      k.AwaitCreate? && c.request == Some(k.request) && d.request == c.request && d.log.sends == c.log.sends
    case Reconnect => k.AwaitReconnect? && c.view.runId == Some(k.runId)
    case Stop(_) => k.AwaitCancel? && c.view.runId == Some(k.runId) && c.view.sessionId == Some(k.sessionId)
    case RefreshStatus =>
      && k.AwaitRefresh? && c.view.runId == Some(k.runId) && c.view.sessionId == Some(k.sessionId)
      && k.check == d.refreshEpoch == c.refreshEpoch + 1
    case Checkpoint(action, _) =>
      k.AwaitCheckpoint? && k.action == action && c.view.runId == Some(k.runId) && c.view.sessionId == Some(k.sessionId)
    case OpenSession(session) => k.AwaitPage? && k.sessionId == session && !k.second && k.offset == 0 && k.rows == []
    case LoadOlder =>
      && k.AwaitOlder? && c.older.Some? && k.cursor == c.older.value.id && k.offset == c.older.value.offset
      && c.view.sessionId == Some(k.sessionId)
    case Recover(run) => k.AwaitRecover? && k.runId == run
  }

  /** Nothing is left of the conversation. */
  ghost predicate Forgets(d: Ctl) {
    && d.request.None? && d.confirmed == [] && d.confirmedRun.None? && !d.contextLimited && d.older.None?
    && d.unsubscribe.None?
  }

  /** The conversation stays as it was. */
  ghost predicate Remembers(c: Ctl, d: Ctl) {
    && d.request == c.request && d.confirmed == c.confirmed && d.confirmedRun == c.confirmedRun
    && d.contextLimited == c.contextLimited && d.older == c.older && d.markersRequired == c.markersRequired
  }

  /** An action that goes through sends one request, under the present epoch, and shows
      it as under way. Stopping, pausing and resuming begin a new epoch, as do a send, an
      opening and a recovery; the others stay in theirs. All but a check, a load and a
      retry let go of the stream. */
  lemma ActionsAskExactly(scope: Scope, events: seq<Event>, command: Command)
    requires Begin(After(Start(scope), events).ctl, command).Success?
    ensures var w := After(Start(scope), events); var v := Step(w, Call(command));
            && w.tickets in v.pending && v.pending == w.pending[w.tickets := v.pending[w.tickets]]
            && v.pending[w.tickets].lease == LeaseOf(v.ctl) && AsksFor(w.ctl, command, v.ctl, v.pending[w.tickets])
            && v.ctl.view == ViewWhile(w.ctl, command, v.ctl.contextLimited)
            && (v.ctl.epoch == w.ctl.epoch <==> command.Retry? || command.Reconnect? || command.RefreshStatus? || command.LoadOlder?)
            && (if command.Retry? || command.RefreshStatus? || command.LoadOlder?
                then v.ctl.unsubscribe == w.ctl.unsubscribe && v.ctl.subscriptions == w.ctl.subscriptions
                else v.ctl.unsubscribe.None?)
  {
    hide After, BoundedHistory, SendSession, SendLimited, SendIssue;
  }

  /** An opening and a recovery forget the conversation, a send keeps what it confirmed
      last, and every other action keeps all of it. Sends and retries, and no other
      action, put the request that they leave active on record. */
  lemma ActionsRememberExactly(scope: Scope, events: seq<Event>, command: Command)
    requires Begin(After(Start(scope), events).ctl, command).Success?
    ensures var c, d := After(Start(scope), events).ctl, Step(After(Start(scope), events), Call(command)).ctl;
            if command.OpenSession? || command.Recover? then Forgets(d)
            else if command.Send? then d.older.None? && d.confirmedRun == c.confirmedRun && d.markersRequired == 0
            else Remembers(c, d)
    ensures var c, d := After(Start(scope), events).ctl, Step(After(Start(scope), events), Call(command)).ctl;
            d.log.creates == c.log.creates + (if (command.Send? || command.Retry?) && d.request.Some?
                                              then [Create(d.request.value, c.view.phase, c.confirmedRun)] else [])
  {
    hide After, BoundedHistory, SendSession, SendLimited, SendIssue;
  }

  /** A retarget and a close forget the conversation, under a new epoch and with an idle
      view; a retarget to an incomplete scope is refused. */
  lemma LeavingForgets(scope: Scope, events: seq<Event>, next: ClientScope)
    ensures var w := After(Start(scope), events);
            var closed, moved := Step(w, Closed), Step(w, Retargeted(next));
            var complete := next.systemId != "" && next.workspaceId.Some? && next.workspaceId.value != "";
            && Forgets(closed.ctl) && closed.ctl.view == View(w.ctl.scope, Idle, None, None, [], None, None, false)
            && closed.ctl.epoch > w.ctl.epoch && closed.ctl.scope == w.ctl.scope && closed.pending == w.pending
            && (!complete ==> moved == w)
            && (complete ==>
                  && Forgets(moved.ctl) && moved.ctl.scope == Scope(next.systemId, next.workspaceId.value)
                  && moved.ctl.view == View(moved.ctl.scope, Idle, None, None, [], None, None, false)
                  && moved.ctl.epoch > w.ctl.epoch && moved.pending == w.pending)
  {
    hide After, WorldInv;
    EveryRunKeepsInv(scope, events);
    ViewIsKnown(After(Start(scope), events));
  }
}
