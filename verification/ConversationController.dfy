/** The controller as the object it is: fields updated in place, one method per
    stretch of code between two awaits. Each method is proved against the
    functions of ConversationRun. */
module ConversationController {
  import opened Wrappers
  import opened JsText
  import opened ConfirmedHistory
  import opened ConversationTypes
  import opened SessionHistory
  import Model = ConversationRun
  import ClientQueries

  /** The event feed: every subscription ever made, with its callback state. */
  class ChatEventFeed {
    var subscriptions: seq<Model.Subscription>

    constructor ()
      ensures subscriptions == []
    {
      subscriptions := [];
    }

    method Subscribe(lease: Model.Lease, runId: Id, streamEpoch: nat) returns (handle: nat)
      modifies this
      ensures handle == |old(subscriptions)|
      ensures subscriptions == old(subscriptions) + [Model.Subscription(lease, runId, streamEpoch, 0, true)]
    {
      handle := |subscriptions|;
      subscriptions := subscriptions + [Model.Subscription(lease, runId, streamEpoch, 0, true)];
    }

    method Dispose(handle: nat)
      modifies this
      ensures subscriptions == if handle < |old(subscriptions)|
                               then old(subscriptions)[handle := old(subscriptions)[handle].(live := false)]
                               else old(subscriptions)
    {
      if handle < |subscriptions| {
        subscriptions := subscriptions[handle := subscriptions[handle].(live := false)];
      }
    }

    method CountMarker(handle: nat)
      requires handle < |subscriptions|
      modifies this
      ensures subscriptions ==
              old(subscriptions)[handle := old(subscriptions)[handle].(markersSeen := old(subscriptions)[handle].markersSeen + 1)]
    {
      subscriptions := subscriptions[handle := subscriptions[handle].(markersSeen := subscriptions[handle].markersSeen + 1)];
    }
  }

  /** The subscriptions once the one that is held, if any, is disposed. */
  function Disposed(subscriptions: seq<Model.Subscription>, held: Option<nat>): seq<Model.Subscription> {
    if held.Some? && held.value < |subscriptions| then
      subscriptions[held.value := subscriptions[held.value].(live := false)]
    else
      subscriptions
  }

  // ---------- The model's states field by field ----------

  lemma DetachShape(c: Model.Ctl)
    ensures Model.Detach(c)
            == Model.Ctl(c.scope, c.selection, c.epoch, c.streamEpoch + 1, c.refreshEpoch,
                         c.markersRequired, c.awaitingMarker, c.older, c.cursors,
                         None, Disposed(c.subscriptions, c.unsubscribe), c.seen, c.lastSeq,
                         c.request, c.confirmed, c.contextLimited, c.confirmedRun, c.view, c.log)
  {
  }

  lemma ResetShape(c: Model.Ctl, scope: Scope)
    ensures Model.Reset(c, scope)
            == Model.Ctl(c.scope, c.selection, c.epoch + 1, c.streamEpoch + 1, c.refreshEpoch,
                         0, false, None, c.cursors, None, Disposed(c.subscriptions, c.unsubscribe), {}, 0,
                         None, [], false, None, Model.IdleView(scope), c.log)
  {
  }

  lemma CloseShape(c: Model.Ctl)
    ensures Model.Close(c)
            == Model.Ctl(c.scope, c.selection, c.epoch + 1, c.streamEpoch, c.refreshEpoch,
                         0, false, None, c.cursors, None, Disposed(c.subscriptions, c.unsubscribe), {}, c.lastSeq,
                         None, [], false, None, Model.IdleView(c.view.scope), c.log)
  {
  }

  lemma ConfirmSkips(c: Model.Ctl, run: Run)
    requires || run.status != StatusCompleted || run.output.None? || run.truncated
             || c.request.None? || c.confirmedRun == Some(run.runId)
    ensures Model.Confirm(c, run) == c
  {
    hide BoundedHistory;
  }

  lemma ConfirmShape(c: Model.Ctl, run: Run)
    requires run.status == StatusCompleted && run.output.Some? && !run.truncated
    requires c.request.Some? && c.confirmedRun != Some(run.runId)
    ensures var request := c.request.value;
            var kept := BoundedHistory(c.confirmed + PairTurns(Pair(request.text, run.output.value)));
            Model.Confirm(c, run)
            == Model.Ctl(c.scope, c.selection, c.epoch, c.streamEpoch, c.refreshEpoch,
                         c.markersRequired, c.awaitingMarker, c.older, c.cursors,
                         c.unsubscribe, c.subscriptions, c.seen, c.lastSeq,
                         c.request, kept, c.contextLimited || |kept| < |c.confirmed| + 2, Some(run.runId), c.view,
                         c.log.(confirmations := c.log.confirmations
                                + [Model.Confirmation(request.serial, run.runId, request.text, run.output.value)]))
  {
    hide BoundedHistory;
  }

  lemma ConfirmKeepsView(c: Model.Ctl, run: Run)
    ensures Model.Confirm(c, run).view == c.view
  {
    hide BoundedHistory;
  }

  function Reattaching(c: Model.Ctl, run: Run): Model.Ctl {
    var d := Model.Detach(c);
    if PhaseOf(run.status) == Running then d.(markersRequired := Model.UNKNOWN_MARKERS) else d
  }

  lemma RefreshShape(c: Model.Ctl, lease: Model.Lease, run: Run)
    ensures var d := Model.Confirm(c, run);
            Model.ApplyRefresh(c, lease, run)
            == if Terminal(c.view.phase) && !Terminal(PhaseOf(run.status)) then c
               else if PhaseOf(run.status) == Running && c.view.phase == Running then
                 d.(view := c.view.(canonicalStatus := Some(run.status), errorCode := None))
               else Model.ShowAndAttach(Reattaching(d, run), lease, run, true)
  {
    hide Model.Detach, Model.ShowAndAttach, Model.Confirm;
    ConfirmKeepsView(c, run);
  }

  lemma SendShape(c: Model.Ctl, request: Model.Request, limited: bool)
    ensures Model.ApplySend(c, request, limited)
            == Model.Ctl(c.scope, c.selection, c.epoch + 1, c.streamEpoch + 1, c.refreshEpoch,
                         0, false, None, c.cursors, None, Disposed(c.subscriptions, c.unsubscribe), {}, 0,
                         Some(request), BoundedHistory(c.confirmed), limited, c.confirmedRun,
                         Model.IdleView(c.scope).(phase := Submitting, contextLimited := limited),
                         c.log.(sends := c.log.sends + 1,
                                creates := c.log.creates + [Model.Create(request, c.view.phase, c.confirmedRun)]))
  {
    hide BoundedHistory;
  }

  lemma RegisterShape(c: Model.Ctl, i: nat, event: StreamEvent)
    requires i < |c.subscriptions|
    ensures var sub := c.subscriptions[i];
            var markers := if event.kind == RunResumed then sub.markersSeen + 1 else sub.markersSeen;
            Model.Register(c, i, event)
            == Model.Ctl(c.scope, c.selection, c.epoch, c.streamEpoch, c.refreshEpoch,
                         c.markersRequired,
                         c.awaitingMarker && !(event.kind == RunResumed && markers >= c.markersRequired),
                         c.older, c.cursors,
                         c.unsubscribe, c.subscriptions[i := sub.(markersSeen := markers)],
                         (if |c.seen| >= Model.SEEN_WINDOW then {} else c.seen) + {event.eventId}, event.seqNo,
                         c.request, c.confirmed, c.contextLimited, c.confirmedRun, c.view, c.log)
  {
  }

  lemma PendingShape(c: Model.Ctl)
    ensures Model.ShowPending(Model.Detach(c)).(epoch := c.epoch + 1)
            == Model.Ctl(c.scope, c.selection, c.epoch + 1, c.streamEpoch + 1, c.refreshEpoch,
                         c.markersRequired, c.awaitingMarker, c.older, c.cursors,
                         None, Disposed(c.subscriptions, c.unsubscribe), c.seen, c.lastSeq,
                         c.request, c.confirmed, c.contextLimited, c.confirmedRun,
                         c.view.(phase := Submitting, output := [], errorCode := None), c.log)
  {
  }

  lemma RecoveredShape(c: Model.Ctl, run: Run)
    ensures Model.ShowRecovered(c, run)
            == Model.Ctl(c.scope, c.selection, c.epoch, c.streamEpoch, c.refreshEpoch,
                         if run.status == StatusResuming then Model.UNKNOWN_MARKERS else 0,
                         c.awaitingMarker, c.older, c.cursors,
                         c.unsubscribe, c.subscriptions, c.seen, c.lastSeq,
                         c.request, c.confirmed, true, c.confirmedRun,
                         c.view.(runId := Some(run.runId), sessionId := Some(run.sessionId),
                                 phase := PhaseOf(run.status), canonicalStatus := Some(run.status),
                                 output := run.output.GetOr([]), contextLimited := true), c.log)
  {
  }

  /** A freshly opened session over the state it replaces. */
  function Installed(c: Model.Ctl, older: Option<Model.Cursor>, confirmed: seq<Turn>, limited: bool,
                     confirmedRun: Option<Id>, opening: Model.View, log: Model.Log): Model.Ctl {
    Model.Ctl(c.scope, c.selection, c.epoch, c.streamEpoch, c.refreshEpoch,
              c.markersRequired, c.awaitingMarker, older, c.cursors + 1,
              c.unsubscribe, c.subscriptions, c.seen, c.lastSeq,
              c.request, confirmed, limited, confirmedRun, opening, log)
  }

  lemma OpenShape(c: Model.Ctl, sessionId: Id, rows: seq<HistoryRow>, more: Option<int>)
    ensures var completed, turns := Flatten(VerifiedPairs(rows)), Render(rows);
            var limited := more.Some? || |completed| > MAX_CONFIRMED_TURNS
                           || exists i :: 0 <= i < |rows| && LimitsContext(rows[i]);
            Model.FinishOpen(c, sessionId, rows, more)
            == Model.Out(
                 Installed(c,
                           if more.Some? then
                             Some(Model.Cursor(c.cursors, sessionId, more.value, |rows|, RunIds(rows)))
                           else None,
                           TakeLast(completed, MAX_CONFIRMED_TURNS), limited,
                           if Model.CanContinue(rows) then Some(rows[0].runId) else None,
                           Model.OpenedView(c.view.scope, sessionId, rows, limited),
                           c.log.(session := sessionId, rows := rows)),
                 None,
                 Model.Opened(turns, more.Some?,
                              if Model.FinalUnverified(rows) && HasAnswer(rows[0]) then Some(|turns| - 1) else None))
  {
    hide Flatten, VerifiedPairs, Render, RunIds, Model.OpenedView;
  }

  class PersonalChatRunController {
    const client: ClientQueries.DashboardClient
    const feed: ChatEventFeed
    var epoch: nat
    var streamEpoch: nat
    var statusRefreshEpoch: nat
    var resumeMarkersRequired: nat
    var awaitingResumeMarker: bool
    var historicalOlder: Option<Model.Cursor>
    var cursors: nat
    var unsubscribe: Option<nat>
    var seen: set<Id>
    var lastSeq: nat
    var activeRequest: Option<Model.Request>
    var confirmedTurns: seq<Turn>
    var contextLimited: bool
    var confirmedRunId: Option<Id>
    var view: Model.View
    var log: Model.Log

    ghost predicate Valid()
      reads this, client
    {
      RequiredScope(client.scope).Some?
    }

    ghost function Abs(): Model.Ctl
      reads this, client, feed
      requires Valid()
    {
      Model.Ctl(
        RequiredScope(client.scope).value, client.selectionEpoch,
        epoch, streamEpoch, statusRefreshEpoch,
        resumeMarkersRequired, awaitingResumeMarker,
        historicalOlder, cursors, unsubscribe, feed.subscriptions,
        seen, lastSeq, activeRequest, confirmedTurns, contextLimited, confirmedRunId,
        view, log)
    }

    constructor (client: ClientQueries.DashboardClient, feed: ChatEventFeed)
      requires RequiredScope(client.scope).Some? && client.selectionEpoch == 0 && feed.subscriptions == []
      ensures this.client == client && this.feed == feed
      ensures Valid() && Abs() == Model.Init(RequiredScope(client.scope).value)
    {
      this.client, this.feed := client, feed;
      epoch, streamEpoch, statusRefreshEpoch := 0, 0, 0;
      resumeMarkersRequired, awaitingResumeMarker := 0, false;
      historicalOlder, cursors, unsubscribe := None, 0, None;
      seen, lastSeq, activeRequest := {}, 0, None;
      confirmedTurns, contextLimited, confirmedRunId := [], false, None;
      view := Model.IdleView(RequiredScope(client.scope).value);
      log := Model.EmptyLog;
    }

    method IsValid(lease: Model.Lease) returns (valid: bool)
      requires Valid()
      ensures valid == Model.Valid(Abs(), lease)
    {
      valid := lease.epoch == epoch && lease.selection == client.selectionEpoch
               && lease.scope == RequiredScope(client.scope).value;
    }

    method IsStale(lease: Model.Lease, runId: Id) returns (stale: bool)
      requires Valid()
      ensures stale == Model.Stale(Abs(), lease, runId)
    {
      var valid := IsValid(lease);
      stale := !valid || view.runId != Some(runId);
    }

    method Capture() returns (lease: Model.Lease)
      requires Valid()
      ensures lease == Model.LeaseOf(Abs())
    {
      lease := Model.Lease(epoch, RequiredScope(client.scope).value, client.selectionEpoch);
    }

    // ---------- Streams ----------

    method DisposeStream()
      requires Valid()
      modifies this`unsubscribe, feed
      ensures unsubscribe == None
      ensures feed.subscriptions == Disposed(old(feed.subscriptions), old(unsubscribe))
    {
      if unsubscribe.Some? {
        feed.Dispose(unsubscribe.value);
      }
      unsubscribe := None;
    }

    method Detach()
      requires Valid()
      modifies this`streamEpoch, this`unsubscribe, feed
      ensures Valid() && Abs() == Model.Detach(old(Abs()))
    {
      hide Model.Detach, Model.Dispose, Disposed, RequiredScope;
      DetachShape(Abs());
      streamEpoch := streamEpoch + 1;
      DisposeStream();
    }

    method Attach(lease: Model.Lease, runId: Id)
      requires Valid()
      modifies this`streamEpoch, this`unsubscribe, this`seen, this`lastSeq, this`awaitingResumeMarker, feed
      ensures Valid() && Abs() == Model.Subscribe(old(Abs()), lease, runId)
    {
      DisposeStream();
      seen, lastSeq := {}, 0;
      awaitingResumeMarker := resumeMarkersRequired > 0;
      streamEpoch := streamEpoch + 1;
      var handle := feed.Subscribe(lease, runId, streamEpoch);
      unsubscribe := Some(handle);
    }

    // ---------- Reset, retarget and close ----------

    method Reset(scope: Scope)
      requires Valid()
      modifies this, feed
      ensures Valid() && Abs() == Model.Reset(old(Abs()), scope)
    {
      hide Model.Reset, Model.Detach, Model.Dispose, Model.IdleView, Disposed, RequiredScope;
      ResetShape(Abs(), scope);
      epoch := epoch + 1;
      streamEpoch := streamEpoch + 1;
      DisposeStream();
      seen, lastSeq, activeRequest := {}, 0, None;
      resumeMarkersRequired, awaitingResumeMarker := 0, false;
      historicalOlder := None;
      confirmedTurns, contextLimited, confirmedRunId := [], false, None;
      view := Model.IdleView(scope);
    }

    method Retarget(scope: ClientScope) returns (failure: Option<Code>)
      requires Valid()
      modifies this, client, feed
      ensures Valid()
      ensures match Model.Retarget(old(Abs()), scope)
              case Success(ctl) => failure == None && Abs() == ctl
              case Failure(code) => failure == Some(code) && Abs() == old(Abs())
    {
      var selected := RequiredScope(scope);
      if selected.None? {
        return Some(ScopeRequired);
      }
      client.Retarget(ClientScope(selected.value.systemId, Some(selected.value.workspaceId)));
      Reset(selected.value);
      failure := None;
    }

    method Close()
      requires Valid()
      modifies this, feed
      ensures Valid() && Abs() == Model.Close(old(Abs()))
    {
      hide Model.Close, Model.Dispose, Disposed, RequiredScope;
      CloseShape(Abs());
      epoch := epoch + 1;
      DisposeStream();
      seen, activeRequest := {}, None;
      resumeMarkersRequired, awaitingResumeMarker := 0, false;
      historicalOlder := None;
      confirmedTurns, contextLimited, confirmedRunId := [], false, None;
      view := view.(phase := Idle, runId := None, sessionId := None, output := [], errorCode := None,
                    canonicalStatus := None, contextLimited := false);
    }

    // ---------- Views and confirmation ----------

    method Interrupt(code: Code)
      requires Valid()
      modifies this`view
      ensures Valid() && Abs() == Model.Interrupt(old(Abs()), code)
    {
      view := view.(phase := Interrupted, errorCode := Some(code));
    }

    method ShowPending()
      requires Valid()
      modifies this`view
      ensures Valid() && Abs() == Model.ShowPending(old(Abs()))
    {
      view := view.(phase := Submitting, output := [], errorCode := None);
    }

    method ConfirmCanonicalOutput(run: Run)
      requires Valid()
      modifies this`confirmedRunId, this`confirmedTurns, this`contextLimited, this`log
      ensures Valid() && Abs() == Model.Confirm(old(Abs()), run)
    {
      hide Model.Confirm, BoundedHistory, Flatten, RequiredScope;
      if || run.status != StatusCompleted || run.output.None? || run.truncated
         || activeRequest.None? || confirmedRunId == Some(run.runId) {
        ConfirmSkips(Abs(), run);
        return;
      }
      ConfirmShape(Abs(), run);
      var request := activeRequest.value;
      confirmedRunId := Some(run.runId);
      var before := |confirmedTurns|;
      confirmedTurns := confirmedTurns + [Turn(User, request.text), Turn(Assistant, run.output.value)];
      confirmedTurns := TrimToBudget(confirmedTurns);
      if |confirmedTurns| < before + 2 {
        contextLimited := true;
      }
      log := log.(confirmations := log.confirmations
                  + [Model.Confirmation(request.serial, run.runId, request.text, run.output.value)]);
    }

    method ShowAndAttach(lease: Model.Lease, run: Run, withSession: bool)
      requires Valid()
      modifies this`view, this`streamEpoch, this`unsubscribe, this`seen, this`lastSeq, this`awaitingResumeMarker, feed
      ensures Valid() && Abs() == Model.ShowAndAttach(old(Abs()), lease, run, withSession)
    {
      hide Model.Subscribe, RequiredScope;
      var next := PhaseOf(run.status);
      view := view.(phase := next, canonicalStatus := Some(run.status), output := Model.FinalOutput(run),
                    errorCode := None, contextLimited := contextLimited);
      if withSession {
        view := view.(sessionId := Some(run.sessionId));
      }
      if next == Running {
        Attach(lease, run.runId);
      }
    }

    method Settle(lease: Model.Lease, run: Run, withSession: bool)
      requires Valid()
      modifies this, feed
      ensures Valid() && Abs() == Model.Settle(old(Abs()), lease, run, withSession)
    {
      ConfirmCanonicalOutput(run);
      ShowAndAttach(lease, run, withSession);
    }

    // ---------- send and retrySubmission ----------

    method Send(text: Text, key: Id, sessionId: Option<Id>) returns (begun: Result<Model.Continuation, Code>)
      requires Valid()
      modifies this, feed
      ensures Valid()
      ensures match Model.BeginSend(old(Abs()), text, key, sessionId)
              case Success(b) => begun == Success(b.next) && Abs() == b.ctl
              case Failure(code) => begun == Failure(code) && Abs() == old(Abs())
    {
      hide BoundedHistory, IsSafeId, IsBlank, Model.ApplySend;
      if IsBlank(text) || |text| > 32_768 {
        return Failure(MessageInvalid);
      }
      if !IsSafeId(key) || (sessionId.GetOr("") != "" && !IsSafeId(sessionId.value)) {
        return Failure(RequestIdInvalid);
      }
      if view.phase != Idle && view.phase != Completed && view.phase != Canceled {
        return Failure(PreviousRunUnresolved);
      }
      var confirmed := TrimToBudget(confirmedTurns);
      var wasCanceled := view.phase == Canceled;
      var selected := if sessionId.Some? then sessionId
                      else if view.phase == Completed || wasCanceled then view.sessionId
                      else None;
      var limited := contextLimited || wasCanceled || (sessionId.GetOr("") != "" && confirmed == []);
      var request := Model.Request(log.sends, text, key, if selected.GetOr("") == "" then None else selected,
                                   confirmed + [Turn(User, text)]);
      assert request == Model.SendRequest(Abs(), text, key, sessionId);
      assert limited == Model.SendLimited(Abs(), sessionId);
      hide Model.SendRequest, Model.SendLimited;
      ApplySend(request, limited, confirmed);
      var lease := Capture();
      begun := Success(Model.AwaitCreate(lease, request));
    }

    method ApplySend(request: Model.Request, limited: bool, confirmed: seq<Turn>)
      requires Valid() && confirmed == BoundedHistory(confirmedTurns)
      modifies this, feed
      ensures Valid() && Abs() == Model.ApplySend(old(Abs()), request, limited)
    {
      hide Model.ApplySend, Model.Reset, Disposed, BoundedHistory;
      SendShape(Abs(), request, limited);
      ResetShape(Abs(), RequiredScope(client.scope).value);
      var previousConfirmedRun, phaseBefore := confirmedRunId, view.phase;
      Reset(RequiredScope(client.scope).value);
      confirmedTurns, confirmedRunId, contextLimited := confirmed, previousConfirmedRun, limited;
      activeRequest := Some(request);
      view := view.(phase := Submitting, contextLimited := limited);
      log := log.(sends := log.sends + 1, creates := log.creates + [Model.Create(request, phaseBefore, previousConfirmedRun)]);
    }

    method RetrySubmission() returns (begun: Result<Model.Continuation, Code>)
      requires Valid()
      modifies this
      ensures Valid()
      ensures match Model.BeginRetry(old(Abs()))
              case Success(b) => begun == Success(b.next) && Abs() == b.ctl
              case Failure(code) => begun == Failure(code) && Abs() == old(Abs())
    {
      if view.phase != Interrupted || activeRequest.None? || view.runId.Some? {
        return Failure(NotRetryable);
      }
      log := log.(creates := log.creates + [Model.Create(activeRequest.value, view.phase, confirmedRunId)]);
      view := view.(phase := Submitting, errorCode := None);
      var lease := Capture();
      begun := Success(Model.AwaitCreate(lease, activeRequest.value));
    }

    method ResumeCreate(lease: Model.Lease, request: Model.Request, reply: Reply)
      returns (next: Option<Model.Continuation>)
      requires Valid()
      modifies this, feed
      ensures Valid() && Model.Out(Abs(), next, Model.Nothing) == Model.ResumeCreate(old(Abs()), lease, request, reply)
    {
      next := None;
      var valid := IsValid(lease);
      if !valid {
        return;
      }
      if reply.Refused? {
        Interrupt(reply.code.GetOr(SubmissionUncertain));
        return;
      }
      match AsRun(reply, lease.scope, None) {
        case Failure(code) => Interrupt(code);
        case Success(run) =>
          if request.sessionId.Some? && run.sessionId != request.sessionId.value {
            Interrupt(SessionBindingMismatch);
            return;
          }
          var completed := run.status == StatusCompleted;
          view := view.(runId := Some(run.runId), sessionId := Some(run.sessionId),
                        phase := if completed then Running else PhaseOf(run.status),
                        canonicalStatus := Some(run.status),
                        output := if completed then [] else run.output.GetOr([]));
          log := log.(answers := log.answers[request.serial := run.runId]);
          if completed {
            next := BeginReconcile(lease, run.runId);
          } else if !Terminal(view.phase) {
            Attach(lease, run.runId);
          }
      }
    }

    // ---------- reconnect and reconcile ----------

    method Reconnect() returns (begun: Result<Model.Continuation, Code>)
      requires Valid()
      modifies this, feed
      ensures Valid()
      ensures match Model.BeginReconnect(old(Abs()))
              case Success(b) => begun == Success(b.next) && Abs() == b.ctl
              case Failure(code) => begun == Failure(code) && Abs() == old(Abs())
    {
      if view.phase != Interrupted || view.runId.None? || !IsSafeId(view.runId.value) {
        return Failure(ReconnectUnavailable);
      }
      var runId := view.runId.value;
      var lease := Capture();
      Detach();
      ShowPending();
      begun := Success(Model.AwaitReconnect(lease, runId));
    }

    method ResumeReconnect(lease: Model.Lease, runId: Id, reply: Reply)
      requires Valid()
      modifies this, feed
      ensures Valid() && Model.Done(Abs()) == Model.ResumeReconnect(old(Abs()), lease, runId, reply)
    {
      var stale := IsStale(lease, runId);
      if stale || Terminal(view.phase) {
        return;
      }
      if reply.Refused? {
        Interrupt(reply.code.GetOr(ReconnectFailed));
        return;
      }
      match Model.Verify(reply, lease.scope, runId, view.sessionId) {
        case Failure(code) => Interrupt(code);
        case Success(run) => Settle(lease, run, true);
      }
    }

    method BeginReconcile(lease: Model.Lease, runId: Id) returns (next: Option<Model.Continuation>)
      requires Valid()
      modifies this, feed
      ensures Valid() && Model.Out(Abs(), next, Model.Nothing) == Model.BeginReconcile(old(Abs()), lease, runId)
    {
      Detach();
      next := Some(Model.AwaitReconcile(lease, runId));
    }

    method FailReconcile(code: Code)
      requires Valid()
      modifies this`view
      ensures Valid() && Abs() == Model.FailReconcile(old(Abs()), code)
    {
      view := view.(phase := Interrupted, output := [], errorCode := Some(code));
    }

    method ApplyReconcile(run: Run)
      requires Valid()
      modifies this
      ensures Valid() && Abs() == Model.ApplyReconcile(old(Abs()), run)
    {
      var canonicalPhase, issue := PhaseOf(run.status), CompletionIssue(run);
      if !Terminal(canonicalPhase) || issue.Some? {
        view := view.(phase := Interrupted, canonicalStatus := Some(run.status), output := [],
                      errorCode := Some(issue.GetOr(TerminalUnconfirmed)));
        return;
      }
      ConfirmCanonicalOutput(run);
      view := view.(phase := canonicalPhase, canonicalStatus := Some(run.status), sessionId := Some(run.sessionId),
                    output := Model.FinalOutput(run), errorCode := None, contextLimited := contextLimited);
    }

    method ResumeReconcile(lease: Model.Lease, runId: Id, reply: Reply)
      requires Valid()
      modifies this
      ensures Valid() && Model.Done(Abs()) == Model.ResumeReconcile(old(Abs()), lease, runId, reply)
    {
      var stale := IsStale(lease, runId);
      if stale || Terminal(view.phase) {
        return;
      }
      if reply.Refused? {
        FailReconcile(reply.code.GetOr(ReconcileFailed));
        return;
      }
      match AsRun(reply, lease.scope, Some(runId)) {
        case Failure(code) => FailReconcile(code);
        case Success(run) =>
          if view.sessionId.Some? && run.sessionId != view.sessionId.value {
            FailReconcile(SessionBindingMismatch);
          } else {
            ApplyReconcile(run);
          }
      }
    }

    // ---------- stop ----------

    method BeginControl() returns (lease: Model.Lease)
      requires Valid()
      modifies this, feed
      ensures Valid() && lease == Model.LeaseOf(Abs())
      ensures Abs() == Model.ShowPending(Model.Detach(old(Abs()))).(epoch := old(epoch) + 1)
    {
      hide Model.ShowPending, Model.Detach, Disposed, RequiredScope;
      PendingShape(Abs());
      epoch := epoch + 1;
      lease := Capture();
      streamEpoch := streamEpoch + 1;
      DisposeStream();
      view := view.(phase := Submitting, output := [], errorCode := None);
    }

    method Stop(operationId: Id) returns (begun: Result<Model.Continuation, Code>)
      requires Valid()
      modifies this, feed
      ensures Valid()
      ensures match Model.BeginStop(old(Abs()), operationId)
              case Success(b) => begun == Success(b.next) && Abs() == b.ctl
              case Failure(code) => begun == Failure(code) && Abs() == old(Abs())
    {
      if !IsSafeId(operationId) {
        return Failure(ControlIdInvalid);
      }
      if || !(view.phase == Running || view.phase == Paused || view.phase == RecoveryRequired)
         || view.runId.None? || view.sessionId.None? {
        return Failure(StopUnavailable);
      }
      hide Model.ShowPending, Model.Detach;
      var runId, sessionId := view.runId.value, view.sessionId.value;
      var lease := BeginControl();
      begun := Success(Model.AwaitCancel(lease, runId, sessionId));
    }

    method FailControl(lease: Model.Lease, runId: Id, code: Code)
      requires Valid()
      modifies this`view
      ensures Valid() && Model.Done(Abs()) == Model.FailControl(old(Abs()), lease, runId, code)
    {
      var stale := IsStale(lease, runId);
      if !stale {
        Interrupt(code);
      }
    }

    method ResumeCancel(lease: Model.Lease, runId: Id, sessionId: Id, reply: Reply)
      returns (next: Option<Model.Continuation>)
      requires Valid()
      modifies this, feed
      ensures Valid()
      ensures Model.Out(Abs(), next, Model.Nothing) == Model.ResumeCancel(old(Abs()), lease, runId, sessionId, reply)
    {
      hide Model.Settle, Model.Interrupt, Model.Verify, Model.FailControl, Model.Stale, RequiredScope;
      next := None;
      if reply.Refused? {
        if reply.code == Some(RunNotCancelable) {
          next := Some(Model.AwaitCancelReadback(lease, runId, sessionId));
        } else {
          FailControl(lease, runId, reply.code.GetOr(StopUncertain));
        }
        return;
      }
      var stale := IsStale(lease, runId);
      if stale {
        return;
      }
      match Model.Verify(reply, lease.scope, runId, Some(sessionId)) {
        case Failure(code) => Interrupt(code);
        case Success(run) => Settle(lease, run, true);
      }
    }

    method ResumeReadback(lease: Model.Lease, refusal: Code, runId: Id, sessionId: Id, reply: Reply)
      requires Valid()
      modifies this, feed
      ensures Valid()
      ensures Model.Done(Abs()) == Model.ResumeReadback(old(Abs()), lease, refusal, runId, sessionId, reply)
    {
      hide Model.Settle, Model.Interrupt, Model.Verify, Model.Stale, IsReadbackIssue, RequiredScope;
      var stale := IsStale(lease, runId);
      if stale {
        return;
      }
      if reply.Refused? {
        Interrupt(Model.ReadbackCode(reply.code.GetOr(refusal), refusal));
        return;
      }
      match Model.Verify(reply, lease.scope, runId, Some(sessionId)) {
        case Failure(code) => Interrupt(Model.ReadbackCode(code, refusal));
        case Success(run) => Settle(lease, run, false);
      }
    }

    // ---------- refreshStatus ----------

    method RefreshStatus() returns (begun: Result<Model.Continuation, Code>)
      requires Valid()
      modifies this
      ensures Valid()
      ensures match Model.BeginRefresh(old(Abs()))
              case Success(b) => begun == Success(b.next) && Abs() == b.ctl
              case Failure(code) => begun == Failure(code) && Abs() == old(Abs())
    {
      if view.runId.None? || view.sessionId.None? || !IsSafeId(view.runId.value) {
        return Failure(RefreshUnavailable);
      }
      statusRefreshEpoch := statusRefreshEpoch + 1;
      var lease := Capture();
      begun := Success(Model.AwaitRefresh(lease, view.runId.value, view.sessionId.value, statusRefreshEpoch));
    }

    method FailRefresh(code: Code)
      requires Valid()
      modifies this, feed
      ensures Valid() && Abs() == Model.FailRefresh(old(Abs()), code)
    {
      if IsReadbackIssue(code) {
        Detach();
        view := view.(phase := Interrupted, output := [], errorCode := Some(code));
      } else {
        view := view.(errorCode := Some(code));
      }
    }

    method Reattach(lease: Model.Lease, run: Run)
      requires Valid()
      modifies this, feed
      ensures Valid() && Abs() == Model.ShowAndAttach(Reattaching(old(Abs()), run), lease, run, true)
    {
      hide Model.Detach, Model.ShowAndAttach, RequiredScope;
      Detach();
      if PhaseOf(run.status) == Running {
        resumeMarkersRequired := Model.UNKNOWN_MARKERS;
      }
      ShowAndAttach(lease, run, true);
    }

    method ApplyRefresh(lease: Model.Lease, run: Run)
      requires Valid()
      modifies this, feed
      ensures Valid() && Abs() == Model.ApplyRefresh(old(Abs()), lease, run)
    {
      hide Model.ApplyRefresh, Model.Confirm, Model.ShowAndAttach, Reattaching, RequiredScope;
      RefreshShape(Abs(), lease, run);
      var state := PhaseOf(run.status);
      if Terminal(view.phase) && !Terminal(state) {
        return;
      }
      ConfirmCanonicalOutput(run);
      if state == Running && view.phase == Running {
        view := view.(canonicalStatus := Some(run.status), errorCode := None);
      } else {
        Reattach(lease, run);
      }
    }

    method ResumeRefresh(lease: Model.Lease, runId: Id, sessionId: Id, check: nat, reply: Reply)
      requires Valid()
      modifies this, feed
      ensures Valid()
      ensures Model.Done(Abs()) == Model.ResumeRefresh(old(Abs()), lease, runId, sessionId, check, reply)
    {
      var stale := IsStale(lease, runId);
      if stale || check != statusRefreshEpoch {
        return;
      }
      if reply.Refused? {
        FailRefresh(reply.code.GetOr(RefreshFailed));
        return;
      }
      match Model.Verify(reply, lease.scope, runId, Some(sessionId)) {
        case Failure(code) => FailRefresh(code);
        case Success(run) => ApplyRefresh(lease, run);
      }
    }

    // ---------- checkpoint ----------

    method Checkpoint(action: Model.Action, operationId: Id) returns (begun: Result<Model.Continuation, Code>)
      requires Valid()
      modifies this, feed
      ensures Valid()
      ensures match Model.BeginCheckpoint(old(Abs()), action, operationId)
              case Success(b) => begun == Success(b.next) && Abs() == b.ctl
              case Failure(code) => begun == Failure(code) && Abs() == old(Abs())
    {
      if !IsSafeId(operationId) {
        return Failure(ControlIdInvalid);
      }
      var canPause := action == Model.PauseRun && view.phase == Running;
      var canResume := action == Model.ResumeRun && (view.phase == Paused || view.phase == RecoveryRequired);
      if !(canPause || canResume) || view.runId.None? || view.sessionId.None? {
        return Failure(if action == Model.PauseRun then PauseUnavailable else ResumeUnavailable);
      }
      hide Model.ShowPending, Model.Detach;
      var runId, sessionId := view.runId.value, view.sessionId.value;
      var lease := BeginControl();
      begun := Success(Model.AwaitCheckpoint(lease, action, runId, sessionId));
    }

    method ResumeCheckpoint(lease: Model.Lease, action: Model.Action, runId: Id, sessionId: Id, reply: Reply)
      returns (next: Option<Model.Continuation>)
      requires Valid()
      modifies this, feed
      ensures Valid()
      ensures Model.Out(Abs(), next, Model.Nothing)
              == Model.ResumeCheckpoint(old(Abs()), lease, action, runId, sessionId, reply)
    {
      hide Model.Settle, Model.Interrupt, Model.Verify, Model.FailControl, Model.Stale, RequiredScope;
      next := None;
      if reply.Refused? {
        if reply.code == Some(RunNotPausable) || reply.code == Some(RunNotResumable) {
          next := Some(Model.AwaitCheckpointReadback(lease, reply.code.value, runId, sessionId));
        } else {
          FailControl(lease, runId, reply.code.GetOr(ControlUncertain));
        }
        return;
      }
      var stale := IsStale(lease, runId);
      if stale {
        return;
      }
      match Model.Verify(reply, lease.scope, runId, Some(sessionId)) {
        case Failure(code) => Interrupt(code);
        case Success(run) =>
          if action == Model.ResumeRun && PhaseOf(run.status) == Running {
            resumeMarkersRequired := resumeMarkersRequired + 1;
          }
          Settle(lease, run, true);
      }
    }

    // ---------- Stream callbacks ----------

    /** Bookkeeping of an accepted event. */
    method Register(handle: nat, event: StreamEvent)
      requires Valid() && handle < |feed.subscriptions|
      modifies this, feed
      ensures Valid() && Abs() == Model.Register(old(Abs()), handle, event)
    {
      hide Model.Register, RequiredScope;
      RegisterShape(Abs(), handle, event);
      ghost var before := feed.subscriptions;
      lastSeq := event.seqNo;
      if event.kind == RunResumed {
        feed.CountMarker(handle);
        if feed.subscriptions[handle].markersSeen >= resumeMarkersRequired {
          awaitingResumeMarker := false;
        }
      }
      if |seen| >= Model.SEEN_WINDOW {
        seen := {};
      }
      seen := seen + {event.eventId};
      assert feed.subscriptions
             == before[handle := before[handle].(markersSeen := if event.kind == RunResumed then before[handle].markersSeen + 1
                                                                 else before[handle].markersSeen)];
    }

    method OnEvent(handle: nat, event: StreamEvent) returns (next: Option<Model.Continuation>)
      requires Valid() && handle < |feed.subscriptions|
      modifies this, feed
      ensures Valid() && Model.Out(Abs(), next, Model.Nothing) == Model.OnEvent(old(Abs()), handle, event)
    {
      next := None;
      var subscription := feed.subscriptions[handle];
      var stale := IsStale(subscription.lease, subscription.runId);
      if stale || subscription.streamEpoch != streamEpoch || Terminal(view.phase) {
        return;
      }
      if || event.scope != subscription.lease.scope || event.runId != subscription.runId
         || event.seqNo <= lastSeq || event.eventId in seen {
        return;
      }
      Register(handle, event);
      hide Model.Register;
      if event.kind == AssistantDelta && event.text.Some? && !awaitingResumeMarker {
        view := view.(output := Take(view.output + event.text.value, MAX_OUTPUT));
      }
      if event.kind == TerminalNotice {
        next := BeginReconcile(subscription.lease, subscription.runId);
      }
    }

    method OnInterrupted(handle: nat, code: Code)
      requires Valid() && handle < |feed.subscriptions|
      modifies this, feed
      ensures Valid() && Model.Done(Abs()) == Model.OnInterrupted(old(Abs()), handle, code)
    {
      var subscription := feed.subscriptions[handle];
      var stale := IsStale(subscription.lease, subscription.runId);
      if !stale && subscription.streamEpoch == streamEpoch && !Terminal(view.phase) {
        Detach();
        Interrupt(code);
      }
    }

    // ---------- recover ----------

    method Recover(runId: Id) returns (begun: Result<Model.Continuation, Code>)
      requires Valid()
      modifies this, feed
      ensures Valid()
      ensures match Model.BeginRecover(old(Abs()), runId)
              case Success(b) => begun == Success(b.next) && Abs() == b.ctl
              case Failure(code) => begun == Failure(code) && Abs() == old(Abs())
    {
      if !IsSafeId(runId) {
        return Failure(RunIdInvalid);
      }
      Reset(RequiredScope(client.scope).value);
      view := view.(phase := Submitting);
      var lease := Capture();
      begun := Success(Model.AwaitRecover(lease, runId));
    }

    method ShowRecovered(run: Run)
      requires Valid()
      modifies this`contextLimited, this`resumeMarkersRequired, this`view
      ensures Valid() && Abs() == Model.ShowRecovered(old(Abs()), run)
    {
      hide Model.ShowRecovered, RequiredScope;
      RecoveredShape(Abs(), run);
      contextLimited := true;
      resumeMarkersRequired := if run.status == StatusResuming then Model.UNKNOWN_MARKERS else 0;
      view := view.(runId := Some(run.runId), sessionId := Some(run.sessionId),
                phase := PhaseOf(run.status), canonicalStatus := Some(run.status),
                output := run.output.GetOr([]), contextLimited := true);
    }

    method ApplyRecover(lease: Model.Lease, run: Run)
      requires Valid()
      modifies this, feed
      ensures Valid() && Abs() == Model.ApplyRecover(old(Abs()), lease, run)
    {
      ShowRecovered(run);
      hide Model.ShowRecovered, Model.Subscribe;
      if !Terminal(view.phase) && view.phase != RecoveryRequired && view.phase != Paused {
        Attach(lease, run.runId);
      }
    }

    method ResumeRecover(lease: Model.Lease, runId: Id, reply: Reply)
      requires Valid()
      modifies this, feed
      ensures Valid() && Model.Done(Abs()) == Model.ResumeRecover(old(Abs()), lease, runId, reply)
    {
      hide Model.ApplyRecover, Model.Interrupt, Model.Valid;
      var valid := IsValid(lease);
      if !valid {
        return;
      }
      if reply.Refused? {
        Interrupt(reply.code.GetOr(RecoveryFailed));
        return;
      }
      match Model.Verify(reply, lease.scope, runId, None) {
        case Failure(code) => Interrupt(code);
        case Success(run) =>
          ApplyRecover(lease, run);
      }
    }

    // ---------- openSession and loadOlderSessionRuns ----------

    method OpenSession(sessionId: Id) returns (begun: Result<Model.Continuation, Code>)
      requires Valid()
      modifies this, feed
      ensures Valid()
      ensures match Model.BeginOpen(old(Abs()), sessionId)
              case Success(b) => begun == Success(b.next) && Abs() == b.ctl
              case Failure(code) => begun == Failure(code) && Abs() == old(Abs())
    {
      if !IsSafeId(sessionId) {
        return Failure(SessionIdInvalid);
      }
      Reset(RequiredScope(client.scope).value);
      view := view.(phase := Submitting);
      var lease := Capture();
      begun := Success(Model.AwaitPage(lease, sessionId, false, 0, []));
    }

    method ResumePage(lease: Model.Lease, sessionId: Id, second: bool, offset: int, rows: seq<HistoryRow>, reply: Reply)
      returns (next: Option<Model.Continuation>, delivery: Model.Delivery)
      requires Valid()
      modifies this
      ensures Valid()
      ensures Model.Out(Abs(), next, delivery)
              == Model.ResumePage(old(Abs()), lease, sessionId, second, offset, rows, reply)
    {
      next, delivery := None, Model.Nothing;
      var valid := IsValid(lease);
      if !valid {
        return;
      }
      if reply.Refused? {
        Interrupt(reply.code.GetOr(HistoryUnavailable));
        return;
      }
      if !reply.PageReply? || !PageAdmissible(reply.page, lease.scope.workspaceId, sessionId, offset) {
        Interrupt(HistoryInvalid);
        return;
      }
      var admissible := CheckRows(reply.page.rows, sessionId);
      if !admissible {
        Interrupt(HistoryInvalid);
        return;
      }
      var all := rows + reply.page.rows;
      if reply.page.hasMore && !second {
        next := Some(Model.AwaitPage(lease, sessionId, true, reply.page.nextOffset.value, all));
        return;
      }
      DistinctRunsBySize(all);
      if |RunIds(all)| != |all| {
        Interrupt(HistoryDuplicateRun);
        return;
      }
      delivery := FinishOpen(sessionId, all, if reply.page.hasMore then reply.page.nextOffset else None);
    }

    method OpenedView(sessionId: Id, rows: seq<HistoryRow>, limited: bool) returns (opening: Model.View)
      ensures opening == Model.OpenedView(view.scope, sessionId, rows, limited)
    {
      hide IsBlank, RequiredScope;
      var canContinue := rows != [] && Confirmable(rows[0]);
      var unverified := rows != [] && rows[0].status == StatusCompleted && !canContinue;
      opening := Model.View(
        view.scope,
        if rows == [] then Idle else if canContinue then Completed else RecoveryRequired,
        if rows == [] then None else Some(rows[0].runId), Some(sessionId),
        if canContinue then rows[0].output.value else [],
        if unverified then Some(HistoryFinalUnverified) else None,
        if rows == [] then None else Some(rows[0].status), limited);
    }

    method InstallHistory(older: Option<Model.Cursor>, confirmed: seq<Turn>, limited: bool,
                          confirmedRun: Option<Id>, opening: Model.View, log: Model.Log)
      requires Valid()
      modifies this`historicalOlder, this`cursors, this`confirmedTurns, this`contextLimited,
        this`confirmedRunId, this`view, this`log
      ensures historicalOlder == older && cursors == old(cursors) + 1
      ensures confirmedTurns == confirmed && contextLimited == limited && confirmedRunId == confirmedRun
      ensures view == opening && this.log == log
    {
      historicalOlder, cursors := older, cursors + 1;
      confirmedTurns, contextLimited, confirmedRunId := confirmed, limited, confirmedRun;
      view := opening;
      this.log := log;
    }

    method FinishOpen(sessionId: Id, rows: seq<HistoryRow>, more: Option<int>) returns (delivery: Model.Delivery)
      requires Valid()
      modifies this
      ensures Valid()
      ensures Model.Out(Abs(), None, delivery) == Model.FinishOpen(old(Abs()), sessionId, rows, more)
    {
      hide Model.FinishOpen, Model.OpenedView, HasAnswer, LimitsContext,
        Flatten, VerifiedPairs, Render, RunIds, RequiredScope;
      OpenShape(Abs(), sessionId, rows, more);
      var turns, completed, incomplete := RenderOldestFirst(rows);
      var limited := more.Some? || incomplete || |completed| > MAX_CONFIRMED_TURNS;
      var opening := OpenedView(sessionId, rows, limited);
      InstallHistory(
        if more.Some? then Some(Model.Cursor(cursors, sessionId, more.value, |rows|, RunIds(rows))) else None,
        TakeLast(completed, MAX_CONFIRMED_TURNS), limited,
        if Model.CanContinue(rows) then Some(rows[0].runId) else None,
        opening, log.(session := sessionId, rows := rows));
      delivery := Model.Opened(
        turns, more.Some?,
        if Model.FinalUnverified(rows) && HasAnswer(rows[0]) then Some(|turns| - 1) else None);
    }

    method LoadOlder() returns (begun: Result<Model.Continuation, Code>)
      requires Valid()
      ensures match Model.BeginOlder(Abs())
              case Success(b) => begun == Success(b.next)
              case Failure(code) => begun == Failure(code)
    {
      if historicalOlder.None? || view.sessionId != Some(historicalOlder.value.sessionId) {
        return Failure(OlderHistoryUnavailable);
      }
      var cursor := historicalOlder.value;
      var lease := Capture();
      begun := Success(Model.AwaitOlder(lease, cursor.id, cursor.sessionId, cursor.offset));
    }

    method ResumeOlder(lease: Model.Lease, cursorId: nat, reply: Reply) returns (delivery: Model.Delivery)
      requires Valid()
      modifies this
      ensures Valid()
      ensures Model.Out(Abs(), None, delivery) == Model.ResumeOlder(old(Abs()), lease, cursorId, reply)
    {
      hide RowsAdmissible, DistinctRuns, RunIds, Render, RequiredScope;
      delivery := Model.Nothing;
      var valid := IsValid(lease);
      if !valid || historicalOlder.None? || historicalOlder.value.id != cursorId || !reply.PageReply? {
        return;
      }
      var cursor, page := historicalOlder.value, reply.page;
      if !PageAdmissible(page, lease.scope.workspaceId, cursor.sessionId, cursor.offset) {
        return;
      }
      var admissible, incoming := CheckOlderRows(page.rows, cursor.sessionId, cursor.seen);
      if !admissible {
        return;
      }
      var turns := RenderOlder(page.rows);
      var total := cursor.total + |page.rows|;
      var hasOlder := page.hasMore && total < MAX_VIEWED_RUNS;
      historicalOlder :=
        if hasOlder then Some(Model.Cursor(cursors, cursor.sessionId, page.nextOffset.value, total, cursor.seen + incoming))
        else None;
      cursors := cursors + 1;
      log := log.(rows := log.rows + page.rows, applied := log.applied + [cursor.id]);
      delivery := Model.Prepended(turns, hasOlder, page.hasMore && !hasOlder);
    }
  }

  // ---------- The loops over history rows ----------

  method CheckRows(rows: seq<HistoryRow>, sessionId: Id) returns (admissible: bool)
    ensures admissible == RowsAdmissible(rows, sessionId)
  {
    for i := 0 to |rows|
      invariant forall j :: 0 <= j < i ==> RowAdmissible(rows[j], sessionId)
    {
      if !RowAdmissible(rows[i], sessionId) {
        return false;
      }
    }
    admissible := true;
  }

  method CheckOlderRows(rows: seq<HistoryRow>, sessionId: Id, seen: set<Id>) returns (admissible: bool, incoming: set<Id>)
    ensures admissible == (RowsAdmissible(rows, sessionId) && DistinctRuns(rows) && RunIds(rows) !! seen)
    ensures admissible ==> incoming == RunIds(rows)
  {
    incoming := {};
    assert rows[..0] == [];
    for i := 0 to |rows|
      invariant forall j :: 0 <= j < i ==> RowAdmissible(rows[j], sessionId)
      invariant incoming == RunIds(rows[..i]) && incoming !! seen
      invariant forall j, k :: 0 <= j < k < i ==> rows[j].runId != rows[k].runId
    {
      var runId := rows[i].runId;
      RunIdsAppend(rows[..i], [rows[i]]);
      assert rows[..i] + [rows[i]] == rows[..i + 1];
      assert [rows[i]][0].runId in RunIds([rows[i]]);
      if !RowAdmissible(rows[i], sessionId) {
        return false, {};
      }
      if runId in seen || runId in incoming {
        RepeatedRun(rows, i, seen, incoming);
        return false, {};
      }
      NewRun(rows, i, incoming);
      incoming := incoming + {runId};
    }
    assert rows[..|rows|] == rows;
    admissible := true;
  }

  lemma RepeatedRun(rows: seq<HistoryRow>, i: nat, seen: set<Id>, incoming: set<Id>)
    requires i < |rows| && incoming == RunIds(rows[..i])
    requires rows[i].runId in seen || rows[i].runId in incoming
    ensures !(DistinctRuns(rows) && RunIds(rows) !! seen)
  {
    assert rows[i].runId in RunIds(rows);
    if rows[i].runId in incoming {
      var j :| 0 <= j < i && rows[..i][j].runId == rows[i].runId;
      assert rows[j].runId == rows[i].runId;
    }
  }

  lemma NewRun(rows: seq<HistoryRow>, i: nat, incoming: set<Id>)
    requires i < |rows| && incoming == RunIds(rows[..i])
    ensures RunIds([rows[i]]) == {rows[i].runId}
    ensures rows[i].runId !in incoming ==> forall j :: 0 <= j < i ==> rows[j].runId != rows[i].runId
  {
    assert [rows[i]][0] == rows[i];
    assert rows[i].runId in RunIds([rows[i]]);
    forall j | 0 <= j < i && rows[j].runId == rows[i].runId
      ensures rows[i].runId in incoming
    {
      assert rows[..i][j].runId in RunIds(rows[..i]);
    }
  }

  /** The size of the id set tells whether any run repeats. */
  lemma {:induction false} DistinctRunsBySize(rows: seq<HistoryRow>)
    ensures |RunIds(rows)| <= |rows|
    ensures |RunIds(rows)| == |rows| <==> DistinctRuns(rows)
    decreases |rows|
  {
    if rows == [] {
      assert RunIds(rows) == {};
    } else {
      var last, front := |rows| - 1, rows[..|rows| - 1];
      DistinctRunsBySize(front);
      RunIdsAppend(front, [rows[last]]);
      assert front + [rows[last]] == rows;
      NewRun(rows, last, RunIds(front));
      if rows[last].runId in RunIds(front) {
        assert RunIds(rows) == RunIds(front);
        RepeatedRun(rows, last, {}, RunIds(front));
      } else {
        assert DistinctRuns(front) ==> DistinctRuns(rows);
        assert DistinctRuns(rows) ==> DistinctRuns(front);
      }
    }
  }

  ghost predicate SomeRowLimits(rows: seq<HistoryRow>) {
    exists i :: 0 <= i < |rows| && LimitsContext(rows[i])
  }

  /** The loop of openSession over its rows, from the oldest to the newest. */
  method RenderOldestFirst(rows: seq<HistoryRow>) returns (turns: seq<Turn>, completed: seq<Turn>, limited: bool)
    ensures turns == Render(rows)
    ensures completed == Flatten(VerifiedPairs(rows))
    ensures limited == SomeRowLimits(rows)
  {
    turns, completed, limited := [], [], false;
    assert rows[|rows|..] == [] && Render([]) == [] && Flatten(VerifiedPairs([])) == [];
    hide Render, VerifiedPairs, Flatten;
    var left: nat := |rows|;
    while left > 0
      invariant left <= |rows|
      invariant turns == Render(rows[left..]) && completed == Flatten(VerifiedPairs(rows[left..]))
      invariant limited == exists i :: left <= i < |rows| && LimitsContext(rows[i])
    {
      left := left - 1;
      var row := rows[left];
      RowStep(rows, left);
      if row.userTruncated || row.outputTruncated {
        limited := true;
      }
      if HasUserText(row) {
        turns := turns + [Turn(User, row.userText.value)];
      } else {
        limited := true;
      }
      if HasAnswer(row) {
        turns := turns + [Turn(Assistant, row.output.value)];
        if Confirmable(row) {
          completed := completed + [Turn(User, row.userText.value), Turn(Assistant, row.output.value)];
        } else {
          limited := true;
        }
      } else {
        limited := true;
      }
    }
    assert rows[0..] == rows;
  }

  lemma RowStep(rows: seq<HistoryRow>, i: nat)
    requires i < |rows|
    ensures Render(rows[i..]) == Render(rows[i + 1..]) + RowTurns(rows[i])
    ensures Flatten(VerifiedPairs(rows[i..]))
            == Flatten(VerifiedPairs(rows[i + 1..]))
               + if Confirmable(rows[i]) then [Turn(User, rows[i].userText.value), Turn(Assistant, rows[i].output.value)] else []
  {
    assert rows[i..][1..] == rows[i + 1..];
    var older := VerifiedPairs(rows[i + 1..]);
    if Confirmable(rows[i]) {
      var pair := Pair(rows[i].userText.value, rows[i].output.value);
      FlattenAppend(older, [pair]);
      assert [pair][1..] == [] && Flatten([pair]) == PairTurns(pair);
    } else {
      assert VerifiedPairs(rows[i..]) == older + [] == older;
      assert Flatten(older) + [] == Flatten(older);
    }
  }

  /** The loop of loadOlderSessionRuns over its rows. */
  method RenderOlder(rows: seq<HistoryRow>) returns (turns: seq<Turn>)
    ensures turns == Render(rows)
  {
    turns := [];
    var left: nat := |rows|;
    while left > 0
      invariant left <= |rows| && turns == Render(rows[left..])
    {
      left := left - 1;
      RowStep(rows, left);
      if HasUserText(rows[left]) {
        turns := turns + [Turn(User, rows[left].userText.value)];
      }
      if HasAnswer(rows[left]) {
        turns := turns + [Turn(Assistant, rows[left].output.value)];
      }
    }
    assert rows[0..] == rows;
  }
}
