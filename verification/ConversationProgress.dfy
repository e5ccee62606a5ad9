/** How one step affects the other requests in flight, and which request or
    stream is responsible for a view that is still submitting or running. */
module ConversationProgress {
  import opened Wrappers
  import opened JsText
  import opened ConfirmedHistory
  import opened ConversationTypes
  import opened SessionHistory
  import opened ConversationRun
  import opened ConversationInvariants

  /** A continuation created by a step is of the present epoch and informed. */
  ghost predicate NextOk(c: Ctl, next: Option<Continuation>) {
    next.Some? ==> ContinuationOk(c, next.value)
  }

  ghost predicate NextDrives(d: Ctl, next: Option<Continuation>) {
    next.Some? && IsCurrent(d, next.value) && Driver(next.value)
  }

  ghost predicate NextReconciles(d: Ctl, next: Option<Continuation>) {
    next.Some? && IsCurrent(d, next.value) && next.value.AwaitReconcile?
  }

  /** After a step from c to d, a submitting view is driven by the request the
      step sent, or was submitting before. */
  ghost predicate SubmittingCovered(c: Ctl, d: Ctl, next: Option<Continuation>) {
    d.view.phase == Submitting ==>
      NextDrives(d, next) || (c.view.phase == Submitting && d.epoch == c.epoch)
  }

  /** After a step from c to d, a running view has a stream, or the step started
      its reconcile, or it was running without a stream before. */
  ghost predicate RunningCovered(c: Ctl, d: Ctl, next: Option<Continuation>) {
    d.view.phase == Running ==>
      || d.unsubscribe.Some? || NextReconciles(d, next)
      || (c.view.phase == Running && c.unsubscribe.None? && d.epoch == c.epoch)
  }

  // ---------- Commands ----------

  lemma BeginIsCompatible(c: Ctl, command: Command)
    requires CoreInv(c) && Begin(c, command).Success?
    requires c.older.Some? ==> c.older.value.id < c.cursors
    ensures var begun := Begin(c, command).value;
            && Compatible(c, begun.ctl)
            && ContinuationOk(begun.ctl, begun.next) && IsCurrent(begun.ctl, begun.next)
  {
  }

  lemma BeginIsCovered(c: Ctl, command: Command)
    requires Begin(c, command).Success?
    ensures var begun := Begin(c, command).value;
            && SubmittingCovered(c, begun.ctl, Some(begun.next))
            && RunningCovered(c, begun.ctl, Some(begun.next))
            && (Opening(begun.next) ==> begun.ctl.epoch > c.epoch || c.view.phase != Submitting)
  {
  }

  // ---------- Replies ----------

  /** The recorded session is untouched; the paging cursor is kept or dropped. */
  ghost predicate SameHistory(c: Ctl, d: Ctl) {
    && d.log.rows == c.log.rows && d.log.session == c.log.session
    && (d.older == c.older || d.older.None?)
  }

  /** A step that keeps epoch, client selection, run in view and record of
      cursors, and shows `phase`. */
  ghost predicate Showing(c: Ctl, d: Ctl, phase: Phase) {
    && d.epoch == c.epoch && d.scope == c.scope && d.selection == c.selection
    && d.cursors == c.cursors && d.older == c.older && SameHistory(c, d)
    && d.view.runId == c.view.runId && d.view.phase == phase
  }

  lemma DetachShows(c: Ctl)
    ensures Showing(c, Detach(c), c.view.phase) && Detach(c).unsubscribe.None?
    ensures Detach(c).view == c.view
  {
  }

  lemma SubscribeShows(c: Ctl, lease: Lease, runId: Id)
    ensures Showing(c, Subscribe(c, lease, runId), c.view.phase) && Subscribe(c, lease, runId).unsubscribe.Some?
  {
  }

  lemma ConfirmShows(c: Ctl, run: Run)
    ensures Showing(c, Confirm(c, run), c.view.phase)
    ensures Confirm(c, run).unsubscribe == c.unsubscribe
  {
    hide BoundedHistory;
  }

  lemma InterruptShows(c: Ctl)
    ensures forall code :: Showing(c, Interrupt(c, code), Interrupted) && Interrupt(c, code).unsubscribe == c.unsubscribe
  {
  }

  lemma ShowAndAttachShows(c: Ctl, lease: Lease, run: Run, withSession: bool)
    ensures var d := ShowAndAttach(c, lease, run, withSession);
            Showing(c, d, PhaseOf(run.status)) && (PhaseOf(run.status) == Running ==> d.unsubscribe.Some?)
  {
    hide Subscribe;
    var shown := ShowSettled(c, run);
    var bound := if withSession then ShowSession(shown, run) else shown;
    SubscribeShows(bound, lease, run.runId);
  }

  lemma SettleShows(c: Ctl, lease: Lease, run: Run, withSession: bool)
    ensures var d := Settle(c, lease, run, withSession);
            Showing(c, d, PhaseOf(run.status)) && (PhaseOf(run.status) == Running ==> d.unsubscribe.Some?)
  {
    hide ShowAndAttach, Confirm;
    ConfirmShows(c, run);
    ShowAndAttachShows(Confirm(c, run), lease, run, withSession);
  }

  lemma ApplyRefreshShows(c: Ctl, lease: Lease, run: Run)
    ensures var d := ApplyRefresh(c, lease, run);
            || (Showing(c, d, c.view.phase) && d.unsubscribe == c.unsubscribe)
            || (Showing(c, d, PhaseOf(run.status)) && (PhaseOf(run.status) == Running ==> d.unsubscribe.Some?))
  {
    hide ShowAndAttach, Confirm, Detach;
    var d := Confirm(c, run);
    ConfirmShows(c, run);
    DetachShows(d);
    var e := Detach(d);
    ShowAndAttachShows(e, lease, run, true);
    ShowAndAttachShows(e.(markersRequired := UNKNOWN_MARKERS), lease, run, true);
  }

  lemma FailRefreshShows(c: Ctl, code: Code)
    ensures var d := FailRefresh(c, code);
            || (Showing(c, d, c.view.phase) && d.unsubscribe == c.unsubscribe)
            || Showing(c, d, Interrupted)
  {
    hide Detach;
    DetachShows(c);
  }

  /** A step that only shows another phase of a known run disturbs nobody. */
  lemma ShowingIsCompatible(c: Ctl, d: Ctl, phase: Phase)
    requires Showing(c, d, phase) && c.view.runId.Some?
    ensures Compatible(c, d)
  {
  }

  /** The step that a reply causes, seen from the other requests in flight. The
      request that the reply answers no longer counts. */
  ghost predicate AnswerCovered(c: Ctl, k: Continuation, out: Out) {
    && (out.ctl.view.phase == Submitting ==>
          || NextDrives(out.ctl, out.next)
          || (c.view.phase == Submitting && out.ctl.epoch == c.epoch && !(IsCurrent(c, k) && Driver(k))))
    && (out.ctl.view.phase == Running ==>
          || out.ctl.unsubscribe.Some? || NextReconciles(out.ctl, out.next)
          || (c.view.phase == Running && c.unsubscribe.None? && out.ctl.epoch == c.epoch
              && !(IsCurrent(c, k) && k.AwaitReconcile?)))
  }

  /** Rows are recorded exactly when turns are delivered, and what is delivered is
      their rendering. */
  ghost predicate Delivers(c: Ctl, out: Out) {
    match out.delivery
    case Nothing => SameHistory(c, out.ctl)
    case Opened(turns, _, _) => turns == Render(out.ctl.log.rows)
    case Prepended(turns, _, _) => turns + Render(c.log.rows) == Render(out.ctl.log.rows)
  }

  /** The shape of every answer about a run in view: nothing happens, or a phase
      other than submitting is shown, running only with a stream. */
  ghost predicate RunAnswer(c: Ctl, out: Out) {
    && out.next.None? && out.delivery == Nothing
    && exists phase :: Showing(c, out.ctl, phase) && phase != Submitting
                       && (phase == Running ==> out.ctl.unsubscribe.Some?)
  }

  lemma RunAnswerIsCovered(c: Ctl, k: Continuation, out: Out)
    requires !Opening(k) && !k.AwaitOlder? && ContinuationOk(c, k)
    requires if IsCurrent(c, k) then RunAnswer(c, out) else out == Done(c)
    ensures Compatible(c, out.ctl) && AnswerCovered(c, k, out)
    ensures out.delivery == Nothing && SameHistory(c, out.ctl)
  {
    if IsCurrent(c, k) {
      var phase :| Showing(c, out.ctl, phase) && phase != Submitting && (phase == Running ==> out.ctl.unsubscribe.Some?);
      ShowingIsCompatible(c, out.ctl, phase);
    }
  }

  lemma ReadbackAnswers(c: Ctl, lease: Lease, refusal: Code, runId: Id, sessionId: Id, reply: Reply)
    requires !Stale(c, lease, runId)
    ensures RunAnswer(c, ResumeReadback(c, lease, refusal, runId, sessionId, reply))
  {
    hide Settle, Verify, Interrupt, Showing;
    InterruptShows(c);
    if !reply.Refused? {
      var verified := Verify(reply, lease.scope, runId, Some(sessionId));
      if verified.Success? {
        SettleShows(c, lease, verified.value, false);
      }
    }
  }

  lemma ReconnectAnswers(c: Ctl, lease: Lease, runId: Id, reply: Reply)
    requires !Stale(c, lease, runId) && !Terminal(c.view.phase)
    ensures RunAnswer(c, ResumeReconnect(c, lease, runId, reply))
  {
    hide Settle, Verify, Interrupt, Showing;
    InterruptShows(c);
    if !reply.Refused? {
      var verified := Verify(reply, lease.scope, runId, c.view.sessionId);
      if verified.Success? {
        SettleShows(c, lease, verified.value, true);
      }
    }
  }

  lemma CancelAnswers(c: Ctl, lease: Lease, runId: Id, sessionId: Id, reply: Reply)
    requires !Stale(c, lease, runId)
    ensures var out := ResumeCancel(c, lease, runId, sessionId, reply);
            RunAnswer(c, out) || out == Out(c, Some(AwaitCancelReadback(lease, runId, sessionId)), Nothing)
  {
    hide Settle, Verify, Interrupt, Showing;
    InterruptShows(c);
    if !reply.Refused? {
      var verified := Verify(reply, lease.scope, runId, Some(sessionId));
      if verified.Success? {
        SettleShows(c, lease, verified.value, true);
      }
    }
  }

  lemma CheckpointAnswers(c: Ctl, lease: Lease, action: Action, runId: Id, sessionId: Id, reply: Reply)
    requires !Stale(c, lease, runId)
    ensures var out := ResumeCheckpoint(c, lease, action, runId, sessionId, reply);
            || RunAnswer(c, out)
            || exists code :: out == Out(c, Some(AwaitCheckpointReadback(lease, code, runId, sessionId)), Nothing)
  {
    hide Settle, Verify, Interrupt;
    InterruptShows(c);
    if !reply.Refused? {
      var verified := Verify(reply, lease.scope, runId, Some(sessionId));
      if verified.Success? {
        SettleShows(c, lease, verified.value, true);
        SettleShows(c.(markersRequired := c.markersRequired + 1), lease, verified.value, true);
        assert Showing(c, ResumeCheckpoint(c, lease, action, runId, sessionId, reply).ctl, PhaseOf(verified.value.status));
      }
    }
  }

  lemma RefreshIsCovered(c: Ctl, k: Continuation, reply: Reply)
    requires k.AwaitRefresh? && ContinuationOk(c, k)
    ensures var out := Resume(c, k, reply);
            Compatible(c, out.ctl) && out.next.None? && AnswerCovered(c, k, out)
            && out.delivery == Nothing && SameHistory(c, out.ctl)
  {
    hide ApplyRefresh, FailRefresh, Verify;
    if !Stale(c, k.lease, k.runId) {
      if reply.Refused? {
        FailRefreshShows(c, reply.code.GetOr(RefreshFailed));
      } else {
        match Verify(reply, k.lease.scope, k.runId, Some(k.sessionId)) {
          case Success(run) => ApplyRefreshShows(c, k.lease, run);
          case Failure(code) => FailRefreshShows(c, code);
        }
      }
    }
  }

  lemma ApplyReconcileShows(c: Ctl, run: Run)
    ensures var d := ApplyReconcile(c, run);
            exists phase :: Showing(c, d, phase) && phase !in {Submitting, Running}
  {
    hide BoundedHistory;
    assert Showing(c, ApplyReconcile(c, run), ApplyReconcile(c, run).view.phase);
  }

  lemma FailReconcileShows(c: Ctl)
    ensures forall code :: Showing(c, FailReconcile(c, code), Interrupted)
  {
  }

  lemma ReconcileAnswers(c: Ctl, lease: Lease, runId: Id, reply: Reply)
    requires !Stale(c, lease, runId) && !Terminal(c.view.phase)
    ensures RunAnswer(c, ResumeReconcile(c, lease, runId, reply))
  {
    hide ApplyReconcile, FailReconcile, AsRun, Showing;
    FailReconcileShows(c);
    if !reply.Refused? && AsRun(reply, lease.scope, Some(runId)).Success? {
      ApplyReconcileShows(c, AsRun(reply, lease.scope, Some(runId)).value);
    }
  }

  /** A terminal view ignores the answer and is itself neither submitting nor
      running. */
  lemma IgnoredIsAnswer(c: Ctl)
    requires c.view.phase !in {Submitting, Running}
    ensures RunAnswer(c, Done(c))
  {
    assert Showing(c, c, c.view.phase);
  }

  lemma RunReplyIsCovered(c: Ctl, k: Continuation, reply: Reply)
    requires !Opening(k) && !k.AwaitOlder? && ContinuationOk(c, k)
    ensures var out := Resume(c, k, reply);
            && Compatible(c, out.ctl) && NextOk(out.ctl, out.next) && AnswerCovered(c, k, out)
            && out.delivery == Nothing && SameHistory(c, out.ctl)
            && (out.next.Some? ==> !Opening(out.next.value))
  {
    hide RunAnswer, Settle, Verify, Interrupt, ApplyReconcile, FailReconcile, ApplyRefresh, FailRefresh;
    if k.AwaitRefresh? {
      RefreshIsCovered(c, k, reply);
    } else if !Stale(c, k.lease, k.runId) {
      match k {
        case AwaitReconnect(lease, runId) =>
          if Terminal(c.view.phase) { IgnoredIsAnswer(c); } else { ReconnectAnswers(c, lease, runId, reply); }
        case AwaitCancel(lease, runId, sessionId) => CancelAnswers(c, lease, runId, sessionId, reply);
        case AwaitCancelReadback(lease, runId, sessionId) =>
          ReadbackAnswers(c, lease, RunNotCancelable, runId, sessionId, reply);
        case AwaitCheckpoint(lease, action, runId, sessionId) =>
          CheckpointAnswers(c, lease, action, runId, sessionId, reply);
        case AwaitCheckpointReadback(lease, refusal, runId, sessionId) =>
          ReadbackAnswers(c, lease, refusal, runId, sessionId, reply);
        case AwaitReconcile(lease, runId) =>
          if Terminal(c.view.phase) { IgnoredIsAnswer(c); } else { ReconcileAnswers(c, lease, runId, reply); }
      }
      if RunAnswer(c, Resume(c, k, reply)) {
        RunAnswerIsCovered(c, k, Resume(c, k, reply));
      }
    }
  }

  lemma ShowCreatedShows(c: Ctl, request: Request, run: Run)
    ensures var d := ShowCreated(c, request, run);
            && d.epoch == c.epoch && d.scope == c.scope && d.selection == c.selection
            && d.cursors == c.cursors && d.older == c.older && SameHistory(c, d)
            && d.view.runId == Some(run.runId) && d.view.phase !in {Submitting, Completed}
            && (d.view.phase == Running <== run.status == StatusCompleted)
  {
  }

  lemma CreateIsCovered(c: Ctl, k: Continuation, reply: Reply)
    requires k.AwaitCreate? && ContinuationOk(c, k)
    ensures var out := Resume(c, k, reply);
            && NextOk(out.ctl, out.next) && AnswerCovered(c, k, out)
            && out.delivery == Nothing && SameHistory(c, out.ctl)
            && (out.next.Some? ==> !Opening(out.next.value))
            && out.ctl.epoch == c.epoch && out.ctl.scope == c.scope && out.ctl.selection == c.selection
            && CursorStep(c, out.ctl)
            && (!IsCurrent(c, k) ==> out.ctl == c)
  {
    hide Interrupt, Subscribe, Detach, ShowCreated, AsRun;
    InterruptShows(c);
    if Valid(c, k.lease) && !reply.Refused? && AsRun(reply, k.lease.scope, None).Success? {
      var run := AsRun(reply, k.lease.scope, None).value;
      var shown := ShowCreated(c, k.request, run);
      ShowCreatedShows(c, k.request, run);
      DetachShows(shown);
      SubscribeShows(shown, k.lease, run.runId);
    }
  }

  lemma FinishOpenShows(c: Ctl, sessionId: Id, rows: seq<HistoryRow>, more: Option<int>)
    ensures var out := FinishOpen(c, sessionId, rows, more);
            && out.next.None? && out.ctl.epoch == c.epoch && out.ctl.scope == c.scope && Delivers(c, out)
            && out.ctl.selection == c.selection && CursorStep(c, out.ctl)
            && out.ctl.view.phase !in {Submitting, Running}
  {
  }

  lemma PageIsCovered(c: Ctl, k: Continuation, reply: Reply)
    requires k.AwaitPage? && ContinuationOk(c, k)
    ensures var out := Resume(c, k, reply);
            && NextOk(out.ctl, out.next) && AnswerCovered(c, k, out) && Delivers(c, out)
            && out.ctl.epoch == c.epoch && out.ctl.scope == c.scope && out.ctl.selection == c.selection
            && CursorStep(c, out.ctl)
            && (!IsCurrent(c, k) ==> out == Done(c))
            && (out.next.Some? ==> out.ctl == c)
  {
    hide FinishOpen, Interrupt;
    InterruptShows(c);
    if reply.PageReply? {
      FinishOpenShows(c, k.sessionId, k.rows + reply.page.rows, if reply.page.hasMore then reply.page.nextOffset else None);
    }
  }

  lemma RecoverIsCovered(c: Ctl, k: Continuation, reply: Reply)
    requires k.AwaitRecover? && ContinuationOk(c, k)
    ensures var out := Resume(c, k, reply);
            && out.next.None? && AnswerCovered(c, k, out)
            && out.delivery == Nothing && SameHistory(c, out.ctl)
            && out.ctl.epoch == c.epoch && out.ctl.scope == c.scope && out.ctl.selection == c.selection
            && CursorStep(c, out.ctl)
            && (!IsCurrent(c, k) ==> out.ctl == c)
  {
    hide Interrupt, Subscribe, Verify;
    InterruptShows(c);
    if Valid(c, k.lease) && !reply.Refused? && Verify(reply, k.lease.scope, k.runId, None).Success? {
      var run := Verify(reply, k.lease.scope, k.runId, None).value;
      SubscribeShows(ShowRecovered(c, run), k.lease, run.runId);
    }
  }

  lemma OlderIsCovered(c: Ctl, k: Continuation, reply: Reply)
    requires k.AwaitOlder? && ContinuationOk(c, k)
    requires c.view.runId.None? && c.view.phase == Submitting ==> c.older.None?
    ensures var out := Resume(c, k, reply);
            Compatible(c, out.ctl) && out.next.None? && AnswerCovered(c, k, out) && Delivers(c, out)
  {
    hide Render, RunIds;
    if reply.PageReply? {
      RenderAppend(c.log.rows, reply.page.rows);
    }
  }

  lemma EventIsCovered(c: Ctl, i: nat, event: StreamEvent)
    requires CoreInv(c) && i < |c.subscriptions|
    ensures var out := OnEvent(c, i, event);
            && Compatible(c, out.ctl) && NextOk(out.ctl, out.next)
            && SubmittingCovered(c, out.ctl, out.next) && RunningCovered(c, out.ctl, out.next)
            && out.delivery == Nothing && SameHistory(c, out.ctl)
            && (out.next.Some? ==> out.next.value.AwaitReconcile?)
  {
    assert SubscriptionOk(c, i);
  }

  lemma InterruptionIsCovered(c: Ctl, i: nat, code: Code)
    requires CoreInv(c) && i < |c.subscriptions|
    ensures var out := OnInterrupted(c, i, code);
            && Compatible(c, out.ctl) && out.next.None?
            && SubmittingCovered(c, out.ctl, out.next) && RunningCovered(c, out.ctl, out.next)
            && out.delivery == Nothing && SameHistory(c, out.ctl)
  {
    hide Detach, Interrupt;
    assert SubscriptionOk(c, i);
    DetachShows(c);
    InterruptShows(Detach(c));
  }
}
