/** Every operation keeps the record of the conversation true. */
module ConversationLedgerSteps {
  import opened Wrappers
  import opened JsText
  import opened ConfirmedHistory
  import opened ConversationTypes
  import opened SessionHistory
  import opened ConversationRun
  import opened ConversationInvariants
  import opened ConversationLedger

  /** A completed run carries its whole text, and the owner vouched for it. */
  ghost predicate RunTrue(facts: set<Fact>, run: Run) {
    run.status == StatusCompleted ==>
      run.output.Some? && !run.truncated && Fact(run.runId, run.output.value) in facts
  }

  lemma VerifiedRunIsTrue(reply: Reply, scope: Scope, runId: Id, sessionId: Option<Id>, facts: set<Fact>)
    requires !reply.Refused? && ReplyFacts(reply, scope.workspaceId) <= facts
    requires Verify(reply, scope, runId, sessionId).Success?
    ensures RunTrue(facts, Verify(reply, scope, runId, sessionId).value)
  {
    VerifiedRunIsOwnerFact(reply, scope, Some(runId));
  }

  // ---------- Steps that leave the record alone ----------

  lemma InterruptKeepsLedger(c: Ctl, facts: set<Fact>)
    requires LedgerInv(c, facts)
    ensures forall code :: LedgerInv(Interrupt(c, code), facts)
  {
    forall code
      ensures LedgerInv(Interrupt(c, code), facts)
    {
      SameRecordKeepsLedger(c, Interrupt(c, code), facts);
    }
  }

  lemma DetachKeepsLedger(c: Ctl, facts: set<Fact>)
    requires LedgerInv(c, facts)
    ensures LedgerInv(Detach(c), facts)
  {
    SameRecordKeepsLedger(c, Detach(c), facts);
  }

  lemma SubscribeKeepsLedger(c: Ctl, lease: Lease, runId: Id, facts: set<Fact>)
    requires LedgerInv(c, facts)
    ensures LedgerInv(Subscribe(c, lease, runId), facts)
  {
    SameRecordKeepsLedger(c, Subscribe(c, lease, runId), facts);
  }

  lemma ShowAndAttachKeepsLedger(c: Ctl, lease: Lease, run: Run, withSession: bool, facts: set<Fact>)
    requires LedgerInv(c, facts) && c.view.runId == Some(run.runId) && RunTrue(facts, run)
    ensures LedgerInv(ShowAndAttach(c, lease, run, withSession), facts)
  {
    var shown := ShowSettled(c, run);
    var bound := if withSession then ShowSession(shown, run) else shown;
    SameRecordKeepsLedger(c, bound, facts);
    SubscribeKeepsLedger(bound, lease, run.runId, facts);
  }

  lemma SettleKeepsLedger(c: Ctl, lease: Lease, run: Run, withSession: bool, facts: set<Fact>)
    requires LedgerInv(c, facts) && c.view.runId == Some(run.runId) && RunTrue(facts, run)
    ensures LedgerInv(Settle(c, lease, run, withSession), facts)
  {
    ConfirmKeepsLedger(c, run, facts);
    ShowAndAttachKeepsLedger(Confirm(c, run), lease, run, withSession, facts);
  }

  // ---------- Replies ----------

  lemma ReadbackKeepsLedger(c: Ctl, lease: Lease, refusal: Code, runId: Id, sessionId: Id, reply: Reply, facts: set<Fact>)
    requires LedgerInv(c, facts) && ReplyFacts(reply, lease.scope.workspaceId) <= facts
    ensures LedgerInv(ResumeReadback(c, lease, refusal, runId, sessionId, reply).ctl, facts)
  {
    hide LedgerInv, Settle, Verify, Interrupt, ReplyFacts, RunTrue;
    InterruptKeepsLedger(c, facts);
    if !Stale(c, lease, runId) && !reply.Refused? {
      var verified := Verify(reply, lease.scope, runId, Some(sessionId));
      if verified.Success? {
        VerifiedRunIsTrue(reply, lease.scope, runId, Some(sessionId), facts);
        SettleKeepsLedger(c, lease, verified.value, false, facts);
      }
    }
  }

  lemma ReconnectKeepsLedger(c: Ctl, lease: Lease, runId: Id, reply: Reply, facts: set<Fact>)
    requires LedgerInv(c, facts) && ReplyFacts(reply, lease.scope.workspaceId) <= facts
    ensures LedgerInv(ResumeReconnect(c, lease, runId, reply).ctl, facts)
  {
    hide LedgerInv, Settle, Verify, Interrupt, ReplyFacts, RunTrue;
    InterruptKeepsLedger(c, facts);
    if !Stale(c, lease, runId) && !reply.Refused? {
      var verified := Verify(reply, lease.scope, runId, c.view.sessionId);
      if verified.Success? {
        VerifiedRunIsTrue(reply, lease.scope, runId, c.view.sessionId, facts);
        SettleKeepsLedger(c, lease, verified.value, true, facts);
      }
    }
  }

  lemma CancelKeepsLedger(c: Ctl, lease: Lease, runId: Id, sessionId: Id, reply: Reply, facts: set<Fact>)
    requires LedgerInv(c, facts) && ReplyFacts(reply, lease.scope.workspaceId) <= facts
    ensures LedgerInv(ResumeCancel(c, lease, runId, sessionId, reply).ctl, facts)
  {
    hide LedgerInv, Settle, Verify, Interrupt, ReplyFacts, RunTrue;
    InterruptKeepsLedger(c, facts);
    if !Stale(c, lease, runId) && !reply.Refused? {
      var verified := Verify(reply, lease.scope, runId, Some(sessionId));
      if verified.Success? {
        VerifiedRunIsTrue(reply, lease.scope, runId, Some(sessionId), facts);
        SettleKeepsLedger(c, lease, verified.value, true, facts);
      }
    }
  }

  lemma CheckpointKeepsLedger(c: Ctl, lease: Lease, action: Action, runId: Id, sessionId: Id, reply: Reply, facts: set<Fact>)
    requires LedgerInv(c, facts) && ReplyFacts(reply, lease.scope.workspaceId) <= facts
    ensures LedgerInv(ResumeCheckpoint(c, lease, action, runId, sessionId, reply).ctl, facts)
  {
    hide LedgerInv, Settle, Verify, Interrupt, ReplyFacts, RunTrue;
    InterruptKeepsLedger(c, facts);
    if !Stale(c, lease, runId) && !reply.Refused? {
      var verified := Verify(reply, lease.scope, runId, Some(sessionId));
      if verified.Success? {
        VerifiedRunIsTrue(reply, lease.scope, runId, Some(sessionId), facts);
        var raised := c.(markersRequired := c.markersRequired + 1);
        SameViewKeepsLedger(c, raised, facts);
        SettleKeepsLedger(raised, lease, verified.value, true, facts);
        SettleKeepsLedger(c, lease, verified.value, true, facts);
      }
    }
  }

  lemma CompletedFact(c: Ctl, facts: set<Fact>)
    requires LedgerInv(c, facts)
    ensures CompletedOk(facts, c.view)
  {
  }

  lemma ViewKeepsLedger(c: Ctl, view: View, facts: set<Fact>)
    requires LedgerInv(c, facts) && view.runId == c.view.runId
    requires view.phase == Completed ==> c.view.phase == Completed && view.output == c.view.output
    ensures LedgerInv(c.(view := view), facts)
  {
    CompletedFact(c, facts);
    hide LedgerInv;
    SameRecordKeepsLedger(c, c.(view := view), facts);
  }

  lemma FailRefreshKeepsLedger(c: Ctl, code: Code, facts: set<Fact>)
    requires LedgerInv(c, facts)
    ensures LedgerInv(FailRefresh(c, code), facts)
  {
    hide LedgerInv, IsReadbackIssue;
    DetachKeepsLedger(c, facts);
    ViewKeepsLedger(Detach(c), c.view.(phase := Interrupted, output := [], errorCode := Some(code)), facts);
    ViewKeepsLedger(c, c.view.(errorCode := Some(code)), facts);
  }

  lemma ApplyRefreshKeepsLedger(c: Ctl, lease: Lease, run: Run, facts: set<Fact>)
    requires LedgerInv(c, facts) && c.view.runId == Some(run.runId) && RunTrue(facts, run)
    ensures LedgerInv(ApplyRefresh(c, lease, run), facts)
  {
    hide LedgerInv, ShowAndAttach, Confirm;
    var d := Confirm(c, run);
    ConfirmKeepsLedger(c, run, facts);
    if PhaseOf(run.status) == Running && c.view.phase == Running {
      SameRecordKeepsLedger(d, d.(view := d.view.(canonicalStatus := Some(run.status), errorCode := None)), facts);
    } else {
      var e := Detach(d);
      DetachKeepsLedger(d, facts);
      var f := if PhaseOf(run.status) == Running then e.(markersRequired := UNKNOWN_MARKERS) else e;
      SameViewKeepsLedger(e, f, facts);
      ShowAndAttachKeepsLedger(f, lease, run, true, facts);
    }
  }

  lemma RefreshKeepsLedger(c: Ctl, lease: Lease, runId: Id, sessionId: Id, check: nat, reply: Reply, facts: set<Fact>)
    requires LedgerInv(c, facts) && ReplyFacts(reply, lease.scope.workspaceId) <= facts
    ensures LedgerInv(ResumeRefresh(c, lease, runId, sessionId, check, reply).ctl, facts)
  {
    hide LedgerInv, ApplyRefresh, FailRefresh, Verify, ReplyFacts, RunTrue;
    if Stale(c, lease, runId) {
    } else if reply.Refused? {
      FailRefreshKeepsLedger(c, reply.code.GetOr(RefreshFailed), facts);
    } else {
      match Verify(reply, lease.scope, runId, Some(sessionId)) {
        case Failure(code) => FailRefreshKeepsLedger(c, code, facts);
        case Success(run) =>
          VerifiedRunIsTrue(reply, lease.scope, runId, Some(sessionId), facts);
          ApplyRefreshKeepsLedger(c, lease, run, facts);
      }
    }
  }

  lemma ApplyReconcileKeepsLedger(c: Ctl, run: Run, facts: set<Fact>)
    requires LedgerInv(c, facts) && c.view.runId == Some(run.runId)
    requires CompletionIssue(run).None? ==> RunTrue(facts, run)
    ensures LedgerInv(ApplyReconcile(c, run), facts)
  {
    if !Terminal(PhaseOf(run.status)) || CompletionIssue(run).Some? {
      SameRecordKeepsLedger(c, ApplyReconcile(c, run), facts);
    } else {
      ConfirmKeepsLedger(c, run, facts);
      SameRecordKeepsLedger(Confirm(c, run), ApplyReconcile(c, run), facts);
    }
  }

  lemma FailReconcileKeepsLedger(c: Ctl, facts: set<Fact>)
    requires LedgerInv(c, facts)
    ensures forall code :: LedgerInv(FailReconcile(c, code), facts)
  {
    forall code
      ensures LedgerInv(FailReconcile(c, code), facts)
    {
      SameRecordKeepsLedger(c, FailReconcile(c, code), facts);
    }
  }

  lemma ReconcileKeepsLedger(c: Ctl, lease: Lease, runId: Id, reply: Reply, facts: set<Fact>)
    requires LedgerInv(c, facts) && ReplyFacts(reply, lease.scope.workspaceId) <= facts
    ensures LedgerInv(ResumeReconcile(c, lease, runId, reply).ctl, facts)
  {
    hide LedgerInv, ApplyReconcile, FailReconcile;
    FailReconcileKeepsLedger(c, facts);
    if !Stale(c, lease, runId) && !reply.Refused? && AsRun(reply, lease.scope, Some(runId)).Success? {
      VerifiedRunIsOwnerFact(reply, lease.scope, Some(runId));
      ApplyReconcileKeepsLedger(c, AsRun(reply, lease.scope, Some(runId)).value, facts);
    }
  }

  lemma ShowCreatedKeepsLedger(c: Ctl, request: Request, run: Run, facts: set<Fact>)
    requires LedgerInv(c, facts) && c.request == Some(request) && c.view.runId.None?
    ensures LedgerInv(ShowCreated(c, request, run), facts)
  {
    RecordAnswer(c.log, request, run.runId, c.confirmedRun);
    PagingFrame(c, ShowCreated(c, request, run));
  }

  lemma CreateKeepsLedger(c: Ctl, lease: Lease, request: Request, reply: Reply, facts: set<Fact>)
    requires LedgerInv(c, facts) && ContinuationOk(c, AwaitCreate(lease, request))
    ensures LedgerInv(ResumeCreate(c, lease, request, reply).ctl, facts)
  {
    hide LedgerInv, ShowCreated, Interrupt, Subscribe, Detach;
    InterruptKeepsLedger(c, facts);
    if Valid(c, lease) && !reply.Refused? && AsRun(reply, lease.scope, None).Success? {
      var run := AsRun(reply, lease.scope, None).value;
      ShowCreatedKeepsLedger(c, request, run, facts);
      DetachKeepsLedger(ShowCreated(c, request, run), facts);
      SubscribeKeepsLedger(ShowCreated(c, request, run), lease, run.runId, facts);
    }
  }

  lemma FinishOpenKeepsLedger(c: Ctl, sessionId: Id, rows: seq<HistoryRow>, more: Option<int>, facts: set<Fact>)
    requires LedgerInv(c, facts) && c.request.None? && RowsFacts(rows) <= facts
    requires DistinctRuns(rows) && RowsAdmissible(rows, sessionId) && |rows| <= 2 * PAGE_SIZE
    requires more.Some? ==> 0 <= more.value <= MAX_OFFSET
    ensures LedgerInv(FinishOpen(c, sessionId, rows, more).ctl, facts)
  {
    FinishOpenKeepsPaging(c, sessionId, rows, more);
    FinishOpenKeepsTruth(c, sessionId, rows, more, facts);
    var d := FinishOpen(c, sessionId, rows, more).ctl;
    LineageFrame(c.log, d.log, None, d.view.runId, d.confirmedRun);
  }

  lemma PageKeepsLedger(c: Ctl, k: Continuation, reply: Reply, facts: set<Fact>)
    requires LedgerInv(c, facts) && k.AwaitPage? && ContinuationOk(c, k)
    requires RowsFacts(k.rows) <= facts && ReplyFacts(reply, k.lease.scope.workspaceId) <= facts
    ensures LedgerInv(Resume(c, k, reply).ctl, facts)
  {
    InterruptKeepsLedger(c, facts);
    if Valid(c, k.lease) && reply.PageReply? && DistinctRuns(k.rows + reply.page.rows)
       && PageAdmissible(reply.page, k.lease.scope.workspaceId, k.sessionId, k.offset)
       && RowsAdmissible(reply.page.rows, k.sessionId) {
      RowsFactsAppend(k.rows, reply.page.rows);
      assert RowsAdmissible(k.rows + reply.page.rows, k.sessionId);
      FinishOpenKeepsLedger(c, k.sessionId, k.rows + reply.page.rows,
                            if reply.page.hasMore then reply.page.nextOffset else None, facts);
    }
  }

  lemma OlderKeepsLedger(c: Ctl, k: Continuation, reply: Reply, facts: set<Fact>)
    requires LedgerInv(c, facts) && k.AwaitOlder? && ContinuationOk(c, k)
    ensures LedgerInv(Resume(c, k, reply).ctl, facts)
  {
    var d := Resume(c, k, reply).ctl;
    if d != c {
      ApplyOlderKeepsPaging(c, reply.page);
      LineageFrame(c.log, d.log, c.request, c.view.runId, c.confirmedRun);
    }
  }

  lemma RecoverKeepsLedger(c: Ctl, lease: Lease, runId: Id, reply: Reply, facts: set<Fact>)
    requires LedgerInv(c, facts) && ContinuationOk(c, AwaitRecover(lease, runId))
    requires ReplyFacts(reply, lease.scope.workspaceId) <= facts
    ensures LedgerInv(ResumeRecover(c, lease, runId, reply).ctl, facts)
  {
    hide LedgerInv, Interrupt, Subscribe, Verify, ReplyFacts;
    InterruptKeepsLedger(c, facts);
    if Valid(c, lease) && !reply.Refused? && Verify(reply, lease.scope, runId, None).Success? {
      var run := Verify(reply, lease.scope, runId, None).value;
      VerifiedRunIsTrue(reply, lease.scope, runId, None, facts);
      SameRecordKeepsLedger(c, ShowRecovered(c, run), facts);
      SubscribeKeepsLedger(ShowRecovered(c, run), lease, run.runId, facts);
    }
  }

  lemma ResumeKeepsLedger(c: Ctl, k: Continuation, reply: Reply, facts: set<Fact>)
    requires LedgerInv(c, facts) && ContinuationOk(c, k)
    requires k.AwaitPage? ==> RowsFacts(k.rows) <= facts
    requires ReplyFacts(reply, k.lease.scope.workspaceId) <= facts
    ensures LedgerInv(Resume(c, k, reply).ctl, facts)
  {
    match k {
      case AwaitCreate(lease, request) => CreateKeepsLedger(c, lease, request, reply, facts);
      case AwaitReconnect(lease, runId) => ReconnectKeepsLedger(c, lease, runId, reply, facts);
      case AwaitCancel(lease, runId, sessionId) => CancelKeepsLedger(c, lease, runId, sessionId, reply, facts);
      case AwaitCancelReadback(lease, runId, sessionId) =>
        ReadbackKeepsLedger(c, lease, RunNotCancelable, runId, sessionId, reply, facts);
      case AwaitRefresh(lease, runId, sessionId, check) =>
        RefreshKeepsLedger(c, lease, runId, sessionId, check, reply, facts);
      case AwaitCheckpoint(lease, action, runId, sessionId) =>
        CheckpointKeepsLedger(c, lease, action, runId, sessionId, reply, facts);
      case AwaitCheckpointReadback(lease, refusal, runId, sessionId) =>
        ReadbackKeepsLedger(c, lease, refusal, runId, sessionId, reply, facts);
      case AwaitReconcile(lease, runId) => ReconcileKeepsLedger(c, lease, runId, reply, facts);
      case AwaitPage(_, _, _, _, _) => PageKeepsLedger(c, k, reply, facts);
      case AwaitOlder(_, _, _, _) => OlderKeepsLedger(c, k, reply, facts);
      case AwaitRecover(lease, runId) => RecoverKeepsLedger(c, lease, runId, reply, facts);
    }
  }

  // ---------- Commands, events, retarget and close ----------

  lemma LineageHasLog(c: Ctl)
    requires LineageInv(c)
    ensures CreatesOk(c.log) && ConfirmationsOk(c.log)
  {
  }

  lemma SendContext(c: Ctl, facts: set<Fact>)
    requires TruthInv(c, facts)
    ensures ContextOk(facts, BoundedHistory(c.confirmed))
  {
    BoundedHistoryKeepsContext(facts, c.confirmed);
  }

  lemma SendPayload(request: Request, context: seq<Turn>, facts: set<Fact>)
    requires ContextOk(facts, context)
    requires request.messages == context + [Turn(User, request.text)]
    ensures PayloadOk(facts, request)
  {
    assert request.messages[..|request.messages| - 1] == context;
  }

  lemma ApplySendFields(c: Ctl, request: Request, limited: bool)
    ensures var d := ApplySend(c, request, limited);
            && d.log == c.log.(sends := c.log.sends + 1, creates := c.log.creates + [Create(request, c.view.phase, c.confirmedRun)])
            && d.confirmed == BoundedHistory(c.confirmed) && d.confirmedRun == c.confirmedRun
            && d.request == Some(request) && d.older.None? && d.cursors == c.cursors
            && d.view.phase == Submitting && d.view.runId.None?
  {
    hide BoundedHistory;
  }

  lemma ApplySendKeepsLedger(c: Ctl, request: Request, limited: bool, facts: set<Fact>)
    requires LedgerInv(c, facts) && request.serial == c.log.sends && c.view.phase in {Idle, Completed, Canceled}
    requires request.messages == BoundedHistory(c.confirmed) + [Turn(User, request.text)]
    ensures LedgerInv(ApplySend(c, request, limited), facts)
  {
    hide LineageOk, RecordTrue, ContextOk, PagingInv, CreatesOk, ConfirmationsOk, ApplySend, BoundedHistory;
    ApplySendFields(c, request, limited);
    var create := Create(request, c.view.phase, c.confirmedRun);
    assert CreatesOk(c.log) && ConfirmationsOk(c.log) by {
      LineageHasLog(c);
    }
    NewSend(c.log, create, c.confirmedRun);
    SendContext(c, facts);
    SendPayload(request, BoundedHistory(c.confirmed), facts);
    AddCreateKeepsRecord(facts, c.log, create, c.log.sends + 1);
    PagingFrame(c, ApplySend(c, request, limited));
  }

  lemma ApplyRetryKeepsLedger(c: Ctl, request: Request, facts: set<Fact>)
    requires LedgerInv(c, facts) && c.request == Some(request) && c.view.runId.None?
    ensures LedgerInv(ApplyRetry(c, request), facts)
  {
    RepeatedCreate(c.log, request, c.view.phase, c.confirmedRun, c.confirmedRun);
    AddCreateKeepsRecord(facts, c.log, Create(request, c.view.phase, c.confirmedRun), c.log.sends);
    assert c.log.(sends := c.log.sends) == c.log;
    PagingFrame(c, ApplyRetry(c, request));
  }

  lemma PendingKeepsLedger(c: Ctl, facts: set<Fact>)
    requires LedgerInv(c, facts)
    ensures LedgerInv(ShowPending(Detach(c)), facts)
    ensures LedgerInv(ShowPending(Detach(c)).(epoch := c.epoch + 1), facts)
  {
    SameRecordKeepsLedger(c, ShowPending(Detach(c)), facts);
    SameRecordKeepsLedger(c, ShowPending(Detach(c)).(epoch := c.epoch + 1), facts);
  }

  lemma RefreshEpochKeepsLedger(c: Ctl, facts: set<Fact>)
    requires LedgerInv(c, facts)
    ensures LedgerInv(c.(refreshEpoch := c.refreshEpoch + 1), facts)
  {
    SameRecordKeepsLedger(c, c.(refreshEpoch := c.refreshEpoch + 1), facts);
  }

  lemma ResetAndShowKeepsLedger(c: Ctl, facts: set<Fact>)
    requires LedgerInv(c, facts)
    ensures LedgerInv(ShowPhase(Reset(c, c.scope), Submitting), facts)
  {
    SameRecordKeepsLedger(c, ShowPhase(Reset(c, c.scope), Submitting), facts);
  }

  lemma BeginKeepsLedger(c: Ctl, command: Command, facts: set<Fact>)
    requires LedgerInv(c, facts) && Begin(c, command).Success?
    ensures LedgerInv(Begin(c, command).value.ctl, facts)
  {
    hide LedgerInv, ShowPending, Detach, ShowPhase, Reset, ApplySend, ApplyRetry, SendLimited, SendSession;
    match command {
      case Send(text, key, continueIn) =>
        ApplySendKeepsLedger(c, SendRequest(c, text, key, continueIn), SendLimited(c, continueIn), facts);
      case Retry => ApplyRetryKeepsLedger(c, c.request.value, facts);
      case OpenSession(_) | Recover(_) => ResetAndShowKeepsLedger(c, facts);
      case Stop(_) | Checkpoint(_, _) | Reconnect => PendingKeepsLedger(c, facts);
      case RefreshStatus =>
        RefreshEpochKeepsLedger(c, facts);
      case LoadOlder =>
    }
  }

  lemma OnEventKeepsLedger(c: Ctl, i: nat, event: StreamEvent, facts: set<Fact>)
    requires LedgerInv(c, facts) && i < |c.subscriptions|
    ensures LedgerInv(OnEvent(c, i, event).ctl, facts)
  {
    hide LedgerInv, Fresh;
    if Accepts(c, c.subscriptions[i]) {
      var d := AppendDelta(Register(c, i, event), event);
      SameRecordKeepsLedger(c, d, facts);
      DetachKeepsLedger(d, facts);
    }
  }

  lemma OnInterruptedKeepsLedger(c: Ctl, i: nat, code: Code, facts: set<Fact>)
    requires LedgerInv(c, facts) && i < |c.subscriptions|
    ensures LedgerInv(OnInterrupted(c, i, code).ctl, facts)
  {
    DetachKeepsLedger(c, facts);
    InterruptKeepsLedger(Detach(c), facts);
  }

  lemma RetargetKeepsLedger(c: Ctl, scope: ClientScope, facts: set<Fact>)
    requires LedgerInv(c, facts) && Retarget(c, scope).Success?
    ensures LedgerInv(Retarget(c, scope).value, facts)
  {
    SameRecordKeepsLedger(c, Retarget(c, scope).value, facts);
  }

  lemma CloseKeepsLedger(c: Ctl, facts: set<Fact>)
    requires LedgerInv(c, facts)
    ensures LedgerInv(Close(c), facts)
  {
    SameRecordKeepsLedger(c, Close(c), facts);
  }
}
