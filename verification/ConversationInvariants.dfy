/** What every operation of the chat run controller keeps. */
module ConversationInvariants {
  import opened Wrappers
  import opened JsText
  import opened ConfirmedHistory
  import opened ConversationTypes
  import opened SessionHistory
  import opened ConversationRun

  // ---------- Captured epochs ----------

  /** A captured lease is of the present epoch or of an earlier one; within one
      epoch scope and selection do not change. */
  ghost predicate LeaseOk(c: Ctl, lease: Lease) {
    && lease.epoch <= c.epoch
    && (lease.epoch == c.epoch ==> lease.scope == c.scope && lease.selection == c.selection)
  }

  // ---------- Streams ----------

  /** The attached subscription is the only live one, belongs to the present
      epochs and the run in view; no other subscription can pass the guards. */
  ghost predicate SubscriptionOk(c: Ctl, i: nat)
    requires i < |c.subscriptions|
  {
    var sub := c.subscriptions[i];
    && LeaseOk(c, sub.lease)
    && sub.streamEpoch <= c.streamEpoch
    && (sub.live <==> c.unsubscribe == Some(i))
    && (sub.live <==> sub.lease.epoch == c.epoch && sub.streamEpoch == c.streamEpoch)
    && (sub.live ==> c.view.runId == Some(sub.runId))
  }

  ghost predicate StreamInv(c: Ctl) {
    && (c.unsubscribe.Some? ==> c.unsubscribe.value < |c.subscriptions|)
    && forall i: nat :: i < |c.subscriptions| ==> SubscriptionOk(c, i)
  }

  // ---------- View ----------

  ghost predicate ViewInv(c: Ctl) {
    && c.view.scope == c.scope
    && (c.view.runId.Some? ==> c.view.sessionId.Some? && IsSafeId(c.view.runId.value))
    && (c.request.Some? ==> c.older.None?)
  }

  // ---------- In-flight requests ----------

  predicate Opening(k: Continuation) {
    k.AwaitCreate? || k.AwaitPage? || k.AwaitRecover?
  }

  /** The requests whose answer ends the submitting phase. */
  predicate Driver(k: Continuation) {
    Opening(k) || k.AwaitReconnect? || k.AwaitCancel? || k.AwaitCancelReadback?
    || k.AwaitCheckpoint? || k.AwaitCheckpointReadback?
  }

  predicate IsCurrent(c: Ctl, k: Continuation) {
    k.lease.epoch == c.epoch
  }

  /** What a continuation of the present epoch knows about the state. */
  ghost predicate Informed(c: Ctl, k: Continuation) {
    match k
    case AwaitCreate(_, request) =>
      c.view.runId.None? && c.view.phase == Submitting && c.request == Some(request) && c.older.None?
    case AwaitPage(_, sessionId, second, offset, rows) =>
      && c.view.runId.None? && c.view.phase == Submitting && c.request.None? && c.older.None?
      && |rows| <= PAGE_SIZE && (!second ==> rows == []) && 0 <= offset <= MAX_OFFSET
      && RowsAdmissible(rows, sessionId)
    case AwaitRecover(_, runId) =>
      c.view.runId.None? && c.view.phase == Submitting && c.request.None? && c.older.None?
    case AwaitOlder(_, cursor, sessionId, offset) =>
      && cursor < c.cursors
      && (c.older.Some? && c.older.value.id == cursor ==>
            c.older.value.sessionId == sessionId && c.older.value.offset == offset)
    case _ => c.view.runId == Some(k.runId)
  }

  ghost predicate ContinuationOk(c: Ctl, k: Continuation) {
    LeaseOk(c, k.lease) && (IsCurrent(c, k) ==> Informed(c, k))
  }

  /** A paging cursor is kept, dropped or replaced by one with a new identity. */
  ghost predicate CursorStep(c: Ctl, d: Ctl) {
    && d.cursors >= c.cursors
    && (d.older.None? || d.older == c.older || d.older.value.id >= c.cursors)
  }

  /** How a step may change the state without disturbing the other requests in
      flight. */
  ghost predicate Compatible(c: Ctl, d: Ctl) {
    || c.epoch < d.epoch
    || (&& d.epoch == c.epoch && d.scope == c.scope && d.selection == c.selection
        && CursorStep(c, d) && d.view.runId == c.view.runId
        && (c.view.runId.None? && c.view.phase == Submitting ==>
              d.view.phase == Submitting && d.request == c.request && d.older == c.older))
  }

  lemma CompatibleKeepsContinuation(c: Ctl, d: Ctl, k: Continuation)
    requires ContinuationOk(c, k) && Compatible(c, d)
    ensures ContinuationOk(d, k)
  {
  }

  // ---------- Stream lemmas ----------

  lemma DetachKeepsStream(c: Ctl)
    requires StreamInv(c)
    ensures StreamInv(Detach(c)) && Detach(c).unsubscribe.None?
  {
    var d := Detach(c);
    forall i: nat | i < |d.subscriptions|
      ensures SubscriptionOk(d, i)
    {
      assert SubscriptionOk(c, i);
    }
  }

  /** Raising the epoch is safe once no stream is attached. */
  lemma NewEpochKeepsStream(c: Ctl, d: Ctl)
    requires StreamInv(c) && c.unsubscribe.None?
    requires d.epoch > c.epoch && d.streamEpoch >= c.streamEpoch
    requires d.unsubscribe.None? && d.subscriptions == c.subscriptions
    ensures StreamInv(d)
  {
    forall i: nat | i < |d.subscriptions|
      ensures SubscriptionOk(d, i)
    {
      assert SubscriptionOk(c, i);
    }
  }

  /** Only the run in view, the epochs and the subscriptions matter. */
  lemma SameStream(c: Ctl, d: Ctl)
    requires StreamInv(c)
    requires d.epoch == c.epoch && d.streamEpoch == c.streamEpoch
    requires d.scope == c.scope && d.selection == c.selection
    requires d.unsubscribe == c.unsubscribe && d.subscriptions == c.subscriptions
    requires d.view.runId == c.view.runId || c.unsubscribe.None?
    ensures StreamInv(d)
  {
    forall i: nat | i < |d.subscriptions|
      ensures SubscriptionOk(d, i)
    {
      assert SubscriptionOk(c, i);
    }
  }

  lemma SubscribeKeepsStream(c: Ctl, lease: Lease, runId: Id)
    requires StreamInv(c)
    requires Valid(c, lease) && c.view.runId == Some(runId)
    ensures StreamInv(Subscribe(c, lease, runId)) && Subscribe(c, lease, runId).unsubscribe.Some?
  {
    var d := Subscribe(c, lease, runId);
    forall i: nat | i < |d.subscriptions|
      ensures SubscriptionOk(d, i)
    {
      if i < |c.subscriptions| {
        assert SubscriptionOk(c, i);
      }
    }
  }

  lemma RegisterKeepsStream(c: Ctl, i: nat, event: StreamEvent)
    requires StreamInv(c) && i < |c.subscriptions|
    ensures StreamInv(Register(c, i, event))
  {
    var d := Register(c, i, event);
    forall j: nat | j < |d.subscriptions|
      ensures SubscriptionOk(d, j)
    {
      assert SubscriptionOk(c, j);
    }
  }

  /** Events of a subscription that is no longer attached are ignored. */
  lemma OnlyAttachedStreamIsHeard(c: Ctl, i: nat)
    requires StreamInv(c) && i < |c.subscriptions|
    requires Accepts(c, c.subscriptions[i])
    ensures c.unsubscribe == Some(i) && c.subscriptions[i].live
  {
    assert SubscriptionOk(c, i);
  }

  lemma ShowAndAttachKeepsStream(c: Ctl, lease: Lease, run: Run, withSession: bool)
    requires StreamInv(c) && Valid(c, lease) && c.view.runId == Some(run.runId)
    ensures StreamInv(ShowAndAttach(c, lease, run, withSession))
  {
    var shown := ShowSettled(c, run);
    var bound := if withSession then ShowSession(shown, run) else shown;
    SameStream(c, bound);
    if PhaseOf(run.status) == Running {
      SubscribeKeepsStream(bound, lease, run.runId);
    }
  }

  // ---------- Every operation keeps the streams and the view ----------

  ghost predicate CoreInv(c: Ctl) {
    StreamInv(c) && ViewInv(c)
  }

  lemma ResetKeepsCore(c: Ctl, scope: Scope)
    requires StreamInv(c)
    ensures StreamInv(Reset(c, scope)) && Reset(c, scope).view.scope == scope
  {
    DetachKeepsStream(c);
    NewEpochKeepsStream(Detach(c), Reset(c, scope));
  }

  lemma SettleKeepsCore(c: Ctl, lease: Lease, run: Run, withSession: bool)
    requires CoreInv(c) && Valid(c, lease) && c.view.runId == Some(run.runId)
    ensures CoreInv(Settle(c, lease, run, withSession))
  {
    SameStream(c, Confirm(c, run));
    ShowAndAttachKeepsStream(Confirm(c, run), lease, run, withSession);
  }

  lemma ShowCreatedKeepsCore(c: Ctl, request: Request, run: Run)
    requires CoreInv(c) && c.view.runId.None? && IsSafeId(run.runId)
    ensures CoreInv(ShowCreated(c, request, run))
  {
    NoRunNoStream(c);
    SameStream(c, ShowCreated(c, request, run));
  }

  lemma ResumeCreateKeepsCore(c: Ctl, lease: Lease, request: Request, reply: Reply)
    requires CoreInv(c) && ContinuationOk(c, AwaitCreate(lease, request))
    ensures CoreInv(ResumeCreate(c, lease, request, reply).ctl)
  {
    InterruptKeepsCore(c);
    if Valid(c, lease) && !reply.Refused? && AsRun(reply, lease.scope, None).Success? {
      var run := AsRun(reply, lease.scope, None).value;
      var shown := ShowCreated(c, request, run);
      ShowCreatedKeepsCore(c, request, run);
      DetachKeepsStream(shown);
      SubscribeKeepsStream(shown, lease, run.runId);
    }
  }

  /** Without a run in view nothing can be attached. */
  lemma NoRunNoStream(c: Ctl)
    requires StreamInv(c) && c.view.runId.None?
    ensures c.unsubscribe.None?
  {
    if c.unsubscribe.Some? {
      assert SubscriptionOk(c, c.unsubscribe.value);
    }
  }

  lemma ReattachKeepsCore(c: Ctl, lease: Lease, run: Run, markers: nat)
    requires CoreInv(c) && Valid(c, lease) && c.view.runId == Some(run.runId)
    ensures CoreInv(ShowAndAttach(Detach(c).(markersRequired := markers), lease, run, true))
  {
    hide StreamInv;
    var d := Detach(c).(markersRequired := markers);
    DetachKeepsStream(c);
    SameStream(Detach(c), d);
    ShowAndAttachKeepsStream(d, lease, run, true);
  }

  lemma ConfirmKeepsCore(c: Ctl, run: Run)
    requires CoreInv(c)
    ensures CoreInv(Confirm(c, run)) && Confirm(c, run).view == c.view && LeaseOf(Confirm(c, run)) == LeaseOf(c)
  {
    hide StreamInv, BoundedHistory;
    SameStream(c, Confirm(c, run));
  }

  lemma ApplyRefreshKeepsCore(c: Ctl, lease: Lease, run: Run)
    requires CoreInv(c) && Valid(c, lease) && c.view.runId == Some(run.runId)
    ensures CoreInv(ApplyRefresh(c, lease, run))
  {
    hide StreamInv, Confirm, ShowAndAttach;
    var d := Confirm(c, run);
    ConfirmKeepsCore(c, run);
    var markers := if PhaseOf(run.status) == Running then UNKNOWN_MARKERS else Detach(d).markersRequired;
    ReattachKeepsCore(d, lease, run, markers);
    assert Detach(d).(markersRequired := Detach(d).markersRequired) == Detach(d);
    SameStream(d, d.(view := d.view.(canonicalStatus := Some(run.status), errorCode := None)));
  }

  lemma FailRefreshKeepsCore(c: Ctl, code: Code)
    requires CoreInv(c)
    ensures CoreInv(FailRefresh(c, code))
  {
    DetachKeepsStream(c);
    SameStream(if IsReadbackIssue(code) then Detach(c) else c, FailRefresh(c, code));
  }

  lemma FinishOpenKeepsCore(c: Ctl, sessionId: Id, rows: seq<HistoryRow>, more: Option<int>)
    requires CoreInv(c) && c.view.runId.None? && c.request.None? && RowsAdmissible(rows, sessionId)
    ensures CoreInv(FinishOpen(c, sessionId, rows, more).ctl)
  {
    NoRunNoStream(c);
    SameStream(c, FinishOpen(c, sessionId, rows, more).ctl);
    if rows != [] {
      assert RowAdmissible(rows[0], sessionId);
    }
  }

  lemma ResumePageKeepsCore(c: Ctl, k: Continuation, reply: Reply)
    requires CoreInv(c) && k.AwaitPage? && ContinuationOk(c, k)
    ensures CoreInv(Resume(c, k, reply).ctl)
  {
    InterruptKeepsCore(c);
    if Valid(c, k.lease) && reply.PageReply? && RowsAdmissible(reply.page.rows, k.sessionId) {
      var more := if reply.page.hasMore then reply.page.nextOffset else None;
      FinishOpenKeepsCore(c, k.sessionId, k.rows + reply.page.rows, more);
    }
  }

  lemma ApplyRecoverKeepsCore(c: Ctl, lease: Lease, run: Run)
    requires CoreInv(c) && Valid(c, lease) && c.view.runId.None? && IsSafeId(run.runId)
    ensures CoreInv(ApplyRecover(c, lease, run))
  {
    NoRunNoStream(c);
    SameStream(c, ShowRecovered(c, run));
    SubscribeKeepsStream(ShowRecovered(c, run), lease, run.runId);
  }

  lemma OnEventKeepsCore(c: Ctl, i: nat, event: StreamEvent)
    requires CoreInv(c) && i < |c.subscriptions|
    ensures CoreInv(OnEvent(c, i, event).ctl)
  {
    RegisterKeepsStream(c, i, event);
    var d := AppendDelta(Register(c, i, event), event);
    SameStream(Register(c, i, event), d);
    DetachKeepsStream(d);
  }

  lemma OnInterruptedKeepsCore(c: Ctl, i: nat, code: Code)
    requires CoreInv(c) && i < |c.subscriptions|
    ensures CoreInv(OnInterrupted(c, i, code).ctl)
  {
    DetachKeepsStream(c);
    SameStream(Detach(c), Interrupt(Detach(c), code));
  }

  lemma InterruptKeepsCore(c: Ctl)
    requires CoreInv(c)
    ensures forall code :: CoreInv(Interrupt(c, code))
  {
    forall code
      ensures CoreInv(Interrupt(c, code))
    {
      SameStream(c, Interrupt(c, code));
    }
  }

  lemma ResumeReconnectKeepsCore(c: Ctl, lease: Lease, runId: Id, reply: Reply)
    requires CoreInv(c)
    ensures CoreInv(ResumeReconnect(c, lease, runId, reply).ctl)
  {
    InterruptKeepsCore(c);
    if !Stale(c, lease, runId) && !reply.Refused? {
      var verified := Verify(reply, lease.scope, runId, c.view.sessionId);
      if verified.Success? {
        SettleKeepsCore(c, lease, verified.value, true);
      }
    }
  }

  lemma ResumeCancelKeepsCore(c: Ctl, lease: Lease, runId: Id, sessionId: Id, reply: Reply)
    requires CoreInv(c)
    ensures CoreInv(ResumeCancel(c, lease, runId, sessionId, reply).ctl)
  {
    InterruptKeepsCore(c);
    if !Stale(c, lease, runId) && !reply.Refused? {
      var verified := Verify(reply, lease.scope, runId, Some(sessionId));
      if verified.Success? {
        SettleKeepsCore(c, lease, verified.value, true);
      }
    }
  }

  lemma ResumeReadbackKeepsCore(c: Ctl, lease: Lease, refusal: Code, runId: Id, sessionId: Id, reply: Reply)
    requires CoreInv(c)
    ensures CoreInv(ResumeReadback(c, lease, refusal, runId, sessionId, reply).ctl)
  {
    if Stale(c, lease, runId) {
    } else if reply.Refused? {
      InterruptKeepsCore(c);
    } else {
      match Verify(reply, lease.scope, runId, Some(sessionId)) {
        case Success(run) => SettleKeepsCore(c, lease, run, false);
        case Failure(_) => InterruptKeepsCore(c);
      }
    }
  }

  lemma ResumeCheckpointKeepsCore(c: Ctl, lease: Lease, action: Action, runId: Id, sessionId: Id, reply: Reply)
    requires CoreInv(c)
    ensures CoreInv(ResumeCheckpoint(c, lease, action, runId, sessionId, reply).ctl)
  {
    InterruptKeepsCore(c);
    if !Stale(c, lease, runId) && !reply.Refused? {
      var verified := Verify(reply, lease.scope, runId, Some(sessionId));
      if verified.Success? {
        var raised := c.(markersRequired := c.markersRequired + 1);
        SameStream(c, raised);
        SettleKeepsCore(raised, lease, verified.value, true);
        SettleKeepsCore(c, lease, verified.value, true);
      }
    }
  }

  lemma ResumeRefreshKeepsCore(c: Ctl, lease: Lease, runId: Id, sessionId: Id, check: nat, reply: Reply)
    requires CoreInv(c)
    ensures CoreInv(ResumeRefresh(c, lease, runId, sessionId, check, reply).ctl)
  {
    if Stale(c, lease, runId) {
    } else if reply.Refused? {
      FailRefreshKeepsCore(c, reply.code.GetOr(RefreshFailed));
    } else {
      match Verify(reply, lease.scope, runId, Some(sessionId)) {
        case Success(run) => ApplyRefreshKeepsCore(c, lease, run);
        case Failure(code) => FailRefreshKeepsCore(c, code);
      }
    }
  }

  lemma FailReconcileKeepsCore(c: Ctl, code: Code)
    requires CoreInv(c)
    ensures CoreInv(FailReconcile(c, code))
  {
    SameStream(c, FailReconcile(c, code));
  }

  lemma ApplyReconcileKeepsCore(c: Ctl, run: Run)
    requires CoreInv(c)
    ensures CoreInv(ApplyReconcile(c, run))
  {
    SameStream(c, ApplyReconcile(c, run));
  }

  lemma ResumeReconcileKeepsCore(c: Ctl, lease: Lease, runId: Id, reply: Reply)
    requires CoreInv(c)
    ensures CoreInv(ResumeReconcile(c, lease, runId, reply).ctl)
  {
    if Stale(c, lease, runId) || Terminal(c.view.phase) {
    } else if reply.Refused? {
      FailReconcileKeepsCore(c, reply.code.GetOr(ReconcileFailed));
    } else {
      match AsRun(reply, lease.scope, Some(runId)) {
        case Failure(code) => FailReconcileKeepsCore(c, code);
        case Success(run) =>
          FailReconcileKeepsCore(c, SessionBindingMismatch);
          ApplyReconcileKeepsCore(c, run);
      }
    }
  }

  lemma ResumeRecoverKeepsCore(c: Ctl, lease: Lease, runId: Id, reply: Reply)
    requires CoreInv(c) && ContinuationOk(c, AwaitRecover(lease, runId))
    ensures CoreInv(ResumeRecover(c, lease, runId, reply).ctl)
  {
    InterruptKeepsCore(c);
    if Valid(c, lease) && !reply.Refused? && Verify(reply, lease.scope, runId, None).Success? {
      ApplyRecoverKeepsCore(c, lease, Verify(reply, lease.scope, runId, None).value);
    }
  }

  lemma ResumeKeepsCore(c: Ctl, k: Continuation, reply: Reply)
    requires CoreInv(c) && ContinuationOk(c, k)
    ensures CoreInv(Resume(c, k, reply).ctl)
  {
    match k {
      case AwaitCreate(lease, request) => ResumeCreateKeepsCore(c, lease, request, reply);
      case AwaitReconnect(lease, runId) => ResumeReconnectKeepsCore(c, lease, runId, reply);
      case AwaitCancel(lease, runId, sessionId) => ResumeCancelKeepsCore(c, lease, runId, sessionId, reply);
      case AwaitCancelReadback(lease, runId, sessionId) =>
        ResumeReadbackKeepsCore(c, lease, RunNotCancelable, runId, sessionId, reply);
      case AwaitRefresh(lease, runId, sessionId, check) =>
        ResumeRefreshKeepsCore(c, lease, runId, sessionId, check, reply);
      case AwaitCheckpoint(lease, action, runId, sessionId) =>
        ResumeCheckpointKeepsCore(c, lease, action, runId, sessionId, reply);
      case AwaitCheckpointReadback(lease, refusal, runId, sessionId) =>
        ResumeReadbackKeepsCore(c, lease, refusal, runId, sessionId, reply);
      case AwaitReconcile(lease, runId) => ResumeReconcileKeepsCore(c, lease, runId, reply);
      case AwaitPage(_, _, _, _, _) => ResumePageKeepsCore(c, k, reply);
      case AwaitOlder(_, _, _, _) => SameStream(c, Resume(c, k, reply).ctl);
      case AwaitRecover(lease, runId) => ResumeRecoverKeepsCore(c, lease, runId, reply);
    }
  }

  // ---------- Commands ----------

  lemma BeginKeepsCore(c: Ctl, command: Command)
    requires CoreInv(c) && Begin(c, command).Success?
    ensures CoreInv(Begin(c, command).value.ctl)
  {
    var d := Begin(c, command).value.ctl;
    DetachKeepsStream(c);
    match command {
      case Send(_, _, _) =>
        ResetKeepsCore(c, c.scope);
        SameStream(Reset(c, c.scope), d);
      case OpenSession(_) | Recover(_) =>
        ResetKeepsCore(c, c.scope);
        SameStream(Reset(c, c.scope), d);
      case Stop(_) | Checkpoint(_, _) => NewEpochKeepsStream(Detach(c), d);
      case Reconnect => SameStream(Detach(c), d);
      case _ => SameStream(c, d);
    }
  }

  lemma RetargetKeepsCore(c: Ctl, scope: ClientScope)
    requires CoreInv(c) && Retarget(c, scope).Success?
    ensures CoreInv(Retarget(c, scope).value)
  {
    DetachKeepsStream(c);
    NewEpochKeepsStream(Detach(c), Retarget(c, scope).value);
  }

  lemma CloseKeepsCore(c: Ctl)
    requires CoreInv(c)
    ensures CoreInv(Close(c))
  {
    var d := Close(c);
    forall i: nat | i < |d.subscriptions|
      ensures SubscriptionOk(d, i)
    {
      assert SubscriptionOk(c, i);
    }
  }
}
