/** A completed answer is confirmed, whichever reply brought it, and the next send
    carries it on. */
module ConversationConfirmations {
  import opened Wrappers
  import opened JsText
  import opened ConfirmedHistory
  import opened ConversationTypes
  import opened SessionHistory
  import opened ConversationRun
  import opened ConversationInvariants
  import opened ConversationLedger
  import opened ConversationWorld
  import opened ConversationContext
  import opened ConversationTheorems

  // ---------- The newest pair in a trimmed context ----------

  function LastConfirmation(log: Log): Confirmation
    requires log.confirmations != []
  {
    log.confirmations[|log.confirmations| - 1]
  }

  /** The context ends with the pair if it fits the bytes at all, and is empty
      otherwise. */
  ghost predicate EndsWith(turns: seq<Turn>, question: Text, answer: Text) {
    if Utf8Length(question) + Utf8Length(answer) <= 18_000 then
      |turns| >= 2 && turns[|turns| - 2] == Turn(User, question) && turns[|turns| - 1] == Turn(Assistant, answer)
    else
      turns == []
  }

  lemma {:induction false} FlattenEnds(pairs: seq<Pair>, last: Pair)
    ensures Flatten(pairs + [last]) == Flatten(pairs) + PairTurns(last)
  {
    FlattenAppend(pairs, [last]);
    assert Flatten([last]) == PairTurns(last) + [];
  }

  /** Trimming keeps the newest pair whenever that pair fits. */
  lemma NewestPairIsKept(turns: seq<Turn>, question: Text, answer: Text)
    requires Paired(turns)
    ensures EndsWith(BoundedHistory(turns + PairTurns(Pair(question, answer))), question, answer)
  {
    var older, last := PairsOf(turns), Pair(question, answer);
    var pairs := older + [last];
    FlattenEnds(older, last);
    PairsOfFlatten(pairs);
    assert PairsOf(turns + PairTurns(last)) == pairs;
    BoundedPairsIsLongestFit(pairs, |older|);
    assert pairs[|older|..] == [last] && TotalCost([last]) == Cost(last) + TotalCost([last][1..]);
    var kept := BoundedPairs(pairs);
    if Cost(last) <= 18_000 {
      assert kept == kept[..|kept| - 1] + [last];
      FlattenEnds(kept[..|kept| - 1], last);
    }
  }

  // ---------- The invariant ----------

  /** Among the creates of the active request is the last one. */
  function Newest(log: Log): Create
    requires log.creates != []
  {
    log.creates[|log.creates| - 1]
  }

  /** The active request has been confirmed with the run that now counts as such. */
  ghost predicate HasConfirmed(c: Ctl, request: Request) {
    && c.log.confirmations != []
    && var last := LastConfirmation(c.log);
       last.serial == request.serial && last.question == request.text && c.confirmedRun == Some(last.runId)
  }

  ghost predicate ConfirmationInv(c: Ctl) {
    c.request.Some? ==>
      && (c.view.phase == Completed ==> c.view.runId.Some? && c.confirmedRun == c.view.runId)
      && c.log.creates != []
      && (c.confirmedRun == Newest(c.log).confirmedBefore || HasConfirmed(c, c.request.value))
      && (c.log.confirmations != [] && LastConfirmation(c.log).serial == c.request.value.serial ==>
            EndsWith(c.confirmed, LastConfirmation(c.log).question, LastConfirmation(c.log).answer))
  }

  /** A step that confirms nothing and completes nothing. */
  ghost predicate Unconfirming(c: Ctl, d: Ctl) {
    && d.log.confirmations == c.log.confirmations
    && (d.request.None?
        || (&& d.request == c.request && d.confirmed == c.confirmed && d.confirmedRun == c.confirmedRun
            && d.log.creates == c.log.creates
            && (d.view.phase == Completed ==> c.view.phase == Completed && d.view.runId == c.view.runId)))
  }

  lemma UnconfirmingKeeps(c: Ctl, d: Ctl)
    requires ConfirmationInv(c) && Unconfirming(c, d)
    ensures ConfirmationInv(d)
  {
    hide EndsWith;
  }

  /** What a readback of the run in view shows: nothing completed, or a completed run
      with its whole text. */
  ghost predicate ShowsRun(c: Ctl, run: Run, d: Ctl) {
    && d.request == c.request && d.log.creates == c.log.creates
    && d.view.runId == c.view.runId == Some(run.runId)
    && (d.view.phase == Completed <==> run.status == StatusCompleted)
    && (run.status == StatusCompleted ==> run.output.Some? && !run.truncated && d.view.output == run.output.value)
  }

  /** The confirmation that is due: of the active request, once for the run. */
  ghost predicate Confirms(c: Ctl, run: Run, d: Ctl) {
    if run.status == StatusCompleted && c.request.Some? && c.confirmedRun != Some(run.runId) then
      && run.output.Some? && d.confirmedRun == Some(run.runId)
      && d.log.confirmations == c.log.confirmations
           + [Confirmation(c.request.value.serial, run.runId, c.request.value.text, run.output.value)]
      && (Paired(c.confirmed) ==> EndsWith(d.confirmed, c.request.value.text, run.output.value))
    else
      d.confirmed == c.confirmed && d.confirmedRun == c.confirmedRun && d.log.confirmations == c.log.confirmations
  }

  lemma ConfirmedKeeps(c: Ctl, run: Run, d: Ctl)
    requires ConfirmationInv(c) && Paired(c.confirmed) && ShowsRun(c, run, d) && Confirms(c, run, d)
    ensures ConfirmationInv(d)
  {
    hide EndsWith, Paired;
  }

  /** Either nothing is confirmed or completed by the step, or a completed run in
      view is, once. */
  ghost predicate Accounted(c: Ctl, d: Ctl) {
    d == c || Unconfirming(c, d) || exists run :: ShowsRun(c, run, d) && Confirms(c, run, d)
  }

  // ---------- Each readback confirms what it shows ----------

  lemma ConfirmIsDue(c: Ctl, run: Run)
    requires run.status == StatusCompleted ==> run.output.Some? && !run.truncated
    ensures Confirms(c, run, Confirm(c, run))
    ensures Confirm(c, run) == c.(confirmed := Confirm(c, run).confirmed, confirmedRun := Confirm(c, run).confirmedRun,
                                  contextLimited := Confirm(c, run).contextLimited,
                                  log := c.log.(confirmations := Confirm(c, run).log.confirmations))
  {
    hide BoundedHistory, Paired, EndsWith;
    if c.request.Some? && run.output.Some? && Paired(c.confirmed) {
      NewestPairIsKept(c.confirmed, c.request.value.text, run.output.value);
    }
  }

  lemma CompletedPhase(status: Status)
    ensures PhaseOf(status) == Completed <==> status == StatusCompleted
  {
  }

  lemma SettleShowsRun(c: Ctl, lease: Lease, run: Run, withSession: bool)
    requires c.view.runId == Some(run.runId)
    requires run.status == StatusCompleted ==> run.output.Some? && !run.truncated
    ensures var d := Settle(c, lease, run, withSession); ShowsRun(c, run, d) && Confirms(c, run, d)
  {
    hide Confirm, PhaseOf, EndsWith, Paired;
    CompletedPhase(run.status);
    ConfirmIsDue(c, run);
  }

  lemma ReconcileShowsRun(c: Ctl, run: Run)
    requires c.view.runId == Some(run.runId) && Terminal(PhaseOf(run.status)) && CompletionIssue(run).None?
    ensures var d := ApplyReconcile(c, run); ShowsRun(c, run, d) && Confirms(c, run, d)
  {
    hide Confirm, PhaseOf, EndsWith, Paired, Terminal;
    CompletedPhase(run.status);
    ConfirmIsDue(c, run);
  }

  lemma AttachFields(c: Ctl, lease: Lease, run: Run)
    ensures var d := ShowAndAttach(c, lease, run, true);
            && d.request == c.request && d.confirmed == c.confirmed && d.confirmedRun == c.confirmedRun && d.log == c.log
            && d.view.runId == c.view.runId && d.view.phase == PhaseOf(run.status) && d.view.output == FinalOutput(run)
  {
    hide PhaseOf;
  }

  lemma DetachFields(c: Ctl)
    ensures var d := Detach(c);
            && d.request == c.request && d.confirmed == c.confirmed && d.confirmedRun == c.confirmedRun && d.log == c.log
            && d.view == c.view
  {
  }

  lemma RefreshShowsRun(c: Ctl, lease: Lease, run: Run)
    requires c.view.runId == Some(run.runId)
    requires run.status == StatusCompleted ==> run.output.Some? && !run.truncated
    ensures var d := ApplyRefresh(c, lease, run);
            d == c || Unconfirming(c, d) || (ShowsRun(c, run, d) && Confirms(c, run, d))
  {
    hide Confirm, PhaseOf, EndsWith, Paired, Terminal, Detach, ShowAndAttach;
    CompletedPhase(run.status);
    ConfirmIsDue(c, run);
    var d := Confirm(c, run);
    DetachFields(d);
    AttachFields(Detach(d), lease, run);
    AttachFields(Detach(d).(markersRequired := UNKNOWN_MARKERS), lease, run);
  }

  lemma RefreshIsAccounted(c: Ctl, lease: Lease, run: Run)
    requires c.view.runId == Some(run.runId)
    requires run.status == StatusCompleted ==> run.output.Some? && !run.truncated
    ensures Accounted(c, ApplyRefresh(c, lease, run))
  {
    hide ShowsRun, Confirms, ApplyRefresh, Unconfirming;
    RefreshShowsRun(c, lease, run);
  }

  lemma FailedRefreshIsAccounted(c: Ctl)
    ensures forall code :: Accounted(c, FailRefresh(c, code))
  {
    forall code
      ensures Accounted(c, FailRefresh(c, code))
    {
      assert Unconfirming(c, FailRefresh(c, code));
    }
  }

  lemma AccountedKeeps(c: Ctl, d: Ctl)
    requires ConfirmationInv(c) && Paired(c.confirmed) && Accounted(c, d)
    ensures ConfirmationInv(d)
  {
    hide ConfirmationInv, Paired, ShowsRun, Confirms, Unconfirming;
    if Unconfirming(c, d) {
      UnconfirmingKeeps(c, d);
    } else if d != c {
      var run :| ShowsRun(c, run, d) && Confirms(c, run, d);
      ConfirmedKeeps(c, run, d);
    }
  }

  // ---------- Replies ----------

  lemma VerifiedRunIsWhole(reply: Reply, scope: Scope, runId: Id, sessionId: Option<Id>)
    requires !reply.Refused? && Verify(reply, scope, runId, sessionId).Success?
    ensures var run := Verify(reply, scope, runId, sessionId).value;
            run.status == StatusCompleted ==> run.output.Some? && !run.truncated
  {
    hide AsRun;
  }

  lemma SettledIsAccounted(c: Ctl, lease: Lease, run: Run, withSession: bool)
    requires c.view.runId == Some(run.runId)
    requires run.status == StatusCompleted ==> run.output.Some? && !run.truncated
    ensures Accounted(c, Settle(c, lease, run, withSession))
  {
    hide ShowsRun, Confirms, Settle;
    SettleShowsRun(c, lease, run, withSession);
  }

  lemma ControlReplyAccounts(c: Ctl, k: Continuation, reply: Reply)
    requires k.AwaitReconnect? || k.AwaitCancel? || k.AwaitCancelReadback? || k.AwaitCheckpointReadback?
    ensures Accounted(c, Resume(c, k, reply).ctl)
  {
    hide Settle, Verify, AsRun, ReadbackCode, Accounted;
    var d := Resume(c, k, reply).ctl;
    var sessionId := if k.AwaitReconnect? then c.view.sessionId else Some(k.sessionId);
    UnconfirmingIsAccounted(c, d);
    if !reply.Refused? && !Stale(c, k.lease, k.runId) && Verify(reply, k.lease.scope, k.runId, sessionId).Success? {
      var run := Verify(reply, k.lease.scope, k.runId, sessionId).value;
      VerifiedRunIsWhole(reply, k.lease.scope, k.runId, sessionId);
      SettledIsAccounted(c, k.lease, run, !(k.AwaitCancelReadback? || k.AwaitCheckpointReadback?));
    }
  }

  lemma UnconfirmingIsAccounted(c: Ctl, d: Ctl)
    ensures d == c || Unconfirming(c, d) ==> Accounted(c, d)
  {
  }

  lemma CheckpointReplyAccounts(c: Ctl, k: Continuation, reply: Reply)
    requires k.AwaitCheckpoint?
    ensures Accounted(c, Resume(c, k, reply).ctl)
  {
    hide Settle, Verify, AsRun, Accounted, PhaseOf;
    var d := Resume(c, k, reply).ctl;
    UnconfirmingIsAccounted(c, d);
    if !reply.Refused? && !Stale(c, k.lease, k.runId) && Verify(reply, k.lease.scope, k.runId, Some(k.sessionId)).Success? {
      var run := Verify(reply, k.lease.scope, k.runId, Some(k.sessionId)).value;
      VerifiedRunIsWhole(reply, k.lease.scope, k.runId, Some(k.sessionId));
      SettledIsAccounted(c, k.lease, run, true);
      RaisedIsAccounted(c, k.lease, run);
    }
  }

  lemma RaisedIsAccounted(c: Ctl, lease: Lease, run: Run)
    requires c.view.runId == Some(run.runId)
    requires run.status == StatusCompleted ==> run.output.Some? && !run.truncated
    ensures Accounted(c, Settle(c.(markersRequired := c.markersRequired + 1), lease, run, true))
  {
    hide Settle, EndsWith, Paired;
    var raised := c.(markersRequired := c.markersRequired + 1);
    SettleShowsRun(raised, lease, run, true);
    assert ShowsRun(c, run, Settle(raised, lease, run, true)) && Confirms(c, run, Settle(raised, lease, run, true));
  }

  lemma RefreshReplyAccounts(c: Ctl, k: Continuation, reply: Reply)
    requires k.AwaitRefresh?
    ensures Accounted(c, Resume(c, k, reply).ctl)
  {
    hide ApplyRefresh, FailRefresh, Verify, AsRun, Accounted;
    UnconfirmingIsAccounted(c, c);
    FailedRefreshIsAccounted(c);
    if !reply.Refused? && !Stale(c, k.lease, k.runId) && Verify(reply, k.lease.scope, k.runId, Some(k.sessionId)).Success? {
      VerifiedRunIsWhole(reply, k.lease.scope, k.runId, Some(k.sessionId));
      RefreshIsAccounted(c, k.lease, Verify(reply, k.lease.scope, k.runId, Some(k.sessionId)).value);
    }
  }

  lemma ReconcileReplyAccounts(c: Ctl, k: Continuation, reply: Reply)
    requires k.AwaitReconcile?
    ensures Accounted(c, Resume(c, k, reply).ctl)
  {
    hide AsRun, ApplyReconcile, Accounted;
    var d := Resume(c, k, reply).ctl;
    UnconfirmingIsAccounted(c, d);
    if !reply.Refused? && !Stale(c, k.lease, k.runId) && AsRun(reply, k.lease.scope, Some(k.runId)).Success? {
      ApplyReconcileAccounts(c, AsRun(reply, k.lease.scope, Some(k.runId)).value);
      ReadRunIsAsked(reply, k.lease.scope, k.runId);
    }
  }

  lemma ReadRunIsAsked(reply: Reply, scope: Scope, runId: Id)
    requires !reply.Refused? && AsRun(reply, scope, Some(runId)).Success?
    ensures AsRun(reply, scope, Some(runId)).value.runId == runId
  {
  }

  lemma ApplyReconcileAccounts(c: Ctl, run: Run)
    ensures c.view.runId == Some(run.runId) ==> Accounted(c, ApplyReconcile(c, run))
  {
    hide Confirm, ShowsRun, Confirms;
    if c.view.runId == Some(run.runId) && Terminal(PhaseOf(run.status)) && CompletionIssue(run).None? {
      ReconcileShowsRun(c, run);
    }
  }

  lemma CreateReplyAccounts(c: Ctl, lease: Lease, request: Request, reply: Reply)
    ensures Accounted(c, ResumeCreate(c, lease, request, reply).ctl)
  {
    hide AsRun, Accounted, PhaseOf;
    if !reply.Refused? && AsRun(reply, lease.scope, None).Success? {
      CompletedPhase(AsRun(reply, lease.scope, None).value.status);
    }
    UnconfirmingIsAccounted(c, ResumeCreate(c, lease, request, reply).ctl);
  }

  lemma RecoverReplyAccounts(c: Ctl, lease: Lease, runId: Id, reply: Reply)
    requires Valid(c, lease) ==> c.request.None?
    ensures Accounted(c, ResumeRecover(c, lease, runId, reply).ctl)
  {
    hide Verify, Accounted, PhaseOf;
    UnconfirmingIsAccounted(c, ResumeRecover(c, lease, runId, reply).ctl);
  }

  lemma PageReplyAccounts(c: Ctl, k: Continuation, reply: Reply)
    requires k.AwaitPage? && (Valid(c, k.lease) ==> c.request.None?)
    ensures Accounted(c, Resume(c, k, reply).ctl)
  {
    hide Accounted, Render, VerifiedPairs, Flatten, RunIds, RowsAdmissible, DistinctRuns, OpenedView, PageAdmissible;
    UnconfirmingIsAccounted(c, Resume(c, k, reply).ctl);
  }

  lemma OpeningReplyAccounts(c: Ctl, k: Continuation, reply: Reply)
    requires ContinuationOk(c, k) && Opening(k)
    ensures Accounted(c, Resume(c, k, reply).ctl)
  {
    hide Accounted, ResumeCreate, ResumePage, ResumeRecover;
    match k {
      case AwaitCreate(lease, request) => CreateReplyAccounts(c, lease, request, reply);
      case AwaitRecover(lease, runId) => RecoverReplyAccounts(c, lease, runId, reply);
      case _ => PageReplyAccounts(c, k, reply);
    }
  }

  lemma OlderReplyAccounts(c: Ctl, k: Continuation, reply: Reply)
    requires k.AwaitOlder?
    ensures Accounted(c, Resume(c, k, reply).ctl)
  {
    hide Accounted, Render, RunIds, RowsAdmissible, DistinctRuns;
    UnconfirmingIsAccounted(c, Resume(c, k, reply).ctl);
  }

  lemma ResumeAccounts(c: Ctl, k: Continuation, reply: Reply)
    requires ContinuationOk(c, k)
    ensures Accounted(c, Resume(c, k, reply).ctl)
  {
    hide Accounted, ContinuationOk, Resume;
    if Opening(k) {
      OpeningReplyAccounts(c, k, reply);
    } else if k.AwaitRefresh? {
      RefreshReplyAccounts(c, k, reply);
    } else if k.AwaitReconcile? {
      ReconcileReplyAccounts(c, k, reply);
    } else if k.AwaitCheckpoint? {
      CheckpointReplyAccounts(c, k, reply);
    } else if k.AwaitOlder? {
      OlderReplyAccounts(c, k, reply);
    } else {
      ControlReplyAccounts(c, k, reply);
    }
  }

  // ---------- Commands and callbacks ----------

  lemma SendKeeps(c: Ctl, text: Text, key: Id, sessionId: Option<Id>)
    requires ConfirmationsOk(c.log) && BeginSend(c, text, key, sessionId).Success?
    ensures ConfirmationInv(BeginSend(c, text, key, sessionId).value.ctl)
  {
    hide BoundedHistory, SendSession, SendLimited, SendIssue;
    if c.log.confirmations != [] {
      assert ConfirmationOk(c.log, LastConfirmation(c.log));
    }
  }

  lemma RetryKeeps(c: Ctl)
    requires ConfirmationInv(c) && BeginRetry(c).Success?
    ensures ConfirmationInv(BeginRetry(c).value.ctl)
  {
    hide EndsWith;
  }

  lemma BeginKeeps(c: Ctl, command: Command)
    requires ConfirmationInv(c) && ConfirmationsOk(c.log) && Begin(c, command).Success?
    ensures ConfirmationInv(Begin(c, command).value.ctl)
  {
    hide BeginSend, BeginRetry, EndsWith, ConfirmationsOk, ConfirmationInv;
    match command {
      case Send(text, key, continueIn) => SendKeeps(c, text, key, continueIn);
      case Retry => RetryKeeps(c);
      case _ => UnconfirmingKeeps(c, Begin(c, command).value.ctl);
    }
  }

  lemma EventKeeps(c: Ctl, i: nat, event: StreamEvent)
    requires ConfirmationInv(c) && i < |c.subscriptions|
    ensures ConfirmationInv(OnEvent(c, i, event).ctl)
  {
    hide ConfirmationInv, Accepts, Fresh;
    UnconfirmingKeeps(c, OnEvent(c, i, event).ctl);
  }

  lemma LossKeeps(c: Ctl, i: nat, code: Code)
    requires ConfirmationInv(c) && i < |c.subscriptions|
    ensures ConfirmationInv(OnInterrupted(c, i, code).ctl)
  {
    hide ConfirmationInv, Accepts;
    UnconfirmingKeeps(c, OnInterrupted(c, i, code).ctl);
  }

  // ---------- Every run ----------

  lemma StepKeepsConfirmations(w: World, e: Event)
    requires WorldInv(w) && ContextInv(w.ctl) && ConfirmationInv(w.ctl)
    ensures ConfirmationInv(Step(w, e).ctl)
  {
    hide PagingInv, TruthInv, CreatesOk, ResponsibilityInv, CoreInv, ConfirmationInv, Begin, Resume, ContinuationOk, OnEvent,
      OnInterrupted, Paired, Restored;
    match e {
      case Call(command) =>
        if Begin(w.ctl, command).Success? {
          BeginKeeps(w.ctl, command);
        }
      case Answer(ticket, reply) =>
        if ticket in w.pending {
          assert PendingOk(w, ticket);
          ResumeAccounts(w.ctl, w.pending[ticket], reply);
          AccountedKeeps(w.ctl, Resume(w.ctl, w.pending[ticket], reply).ctl);
        }
      case Streamed(index, event) =>
        if index < |w.ctl.subscriptions| {
          EventKeeps(w.ctl, index, event);
        }
      case StreamLost(index, code) =>
        if index < |w.ctl.subscriptions| {
          LossKeeps(w.ctl, index, code);
        }
      case Retargeted(scope) =>
        if Retarget(w.ctl, scope).Success? {
          UnconfirmingKeeps(w.ctl, Step(w, e).ctl);
        }
      case Closed => UnconfirmingKeeps(w.ctl, Step(w, e).ctl);
    }
  }

  lemma {:induction false} RunKeepsConfirmations(w: World, events: seq<Event>)
    requires WorldInv(w) && ContextInv(w.ctl) && ConfirmationInv(w.ctl)
    ensures ConfirmationInv(After(w, events).ctl)
    decreases |events|
  {
    hide WorldInv, ContextInv, ConfirmationInv, Step;
    if events != [] {
      StepKeepsConfirmations(w, events[0]);
      StepKeepsContext(w, events[0]);
      StepKeepsInv(w, events[0]);
      RunKeepsConfirmations(Step(w, events[0]), events[1..]);
    }
  }

  lemma EveryRunIsConfirmed(scope: Scope, events: seq<Event>)
    ensures ConfirmationInv(After(Start(scope), events).ctl)
  {
    hide After, WorldInv;
    StartInv(scope);
    NothingIsRestored([]);
    RunKeepsConfirmations(Start(scope), events);
  }

  // ---------- Theorems ----------

  /** The owner never gave two texts for one completed run. */
  ghost predicate OneText(scope: Scope, events: seq<Event>, runId: Id) {
    forall a: Text, b: Text :: OwnerSaid(scope, events, Fact(runId, a)) && OwnerSaid(scope, events, Fact(runId, b)) ==> a == b
  }

  /** In every reachable state in which the run of the active request is shown as
      completed, whichever reply showed it, the newest confirmation is of that
      request, that run and that question, unless that run counted as confirmed
      already when the request was sent. Its answer is an owner text for the run, and
      the very text in view if the owner gave one text only. */
  lemma CompletedViewIsConfirmed(scope: Scope, events: seq<Event>)
    ensures var c := After(Start(scope), events).ctl;
            c.view.phase == Completed && c.request.Some? && c.log.creates != []
            && c.log.creates[|c.log.creates| - 1].confirmedBefore != c.view.runId ==>
              && c.log.confirmations != [] && c.view.runId.Some?
              && var last := c.log.confirmations[|c.log.confirmations| - 1];
                 && last.serial == c.request.value.serial && last.runId == c.view.runId.value
                 && last.question == c.request.value.text
                 && OwnerSaid(scope, events, Fact(last.runId, last.answer))
                 && (OneText(scope, events, last.runId) ==> last.answer == c.view.output)
  {
    hide After, EndsWith, OwnerSaid, WorldInv;
    EveryRunIsConfirmed(scope, events);
    EveryRunKeepsInv(scope, events);
    var c := After(Start(scope), events).ctl;
    if c.view.phase == Completed && c.request.Some? && Newest(c.log).confirmedBefore != c.view.runId {
      var last := LastConfirmation(c.log);
      ConfirmedIsSaid(scope, events);
      CompletedViewIsOwnerText(scope, events);
    }
  }

  lemma ConfirmedIsSaid(scope: Scope, events: seq<Event>)
    ensures var log := After(Start(scope), events).ctl.log;
            log.confirmations != [] ==>
              OwnerSaid(scope, events, Fact(LastConfirmation(log).runId, LastConfirmation(log).answer))
  {
    hide After, OwnerSaid;
    var log := After(Start(scope), events).ctl.log;
    if log.confirmations != [] {
      EachSendConfirmsOnce(scope, events, |log.confirmations| - 1, 0);
    }
  }

  /** Then the next send that is accepted carries the confirmed question and answer
      right before its own text, if the two fit 18000 bytes at all; otherwise it
      carries nothing else. */
  lemma NextSendCarriesAnswer(scope: Scope, events: seq<Event>, text: Text, key: Id, sessionId: Option<Id>)
    requires var c := After(Start(scope), events).ctl;
             && c.view.phase == Completed && c.request.Some? && c.log.creates != []
             && c.log.creates[|c.log.creates| - 1].confirmedBefore != c.view.runId
    requires Begin(After(Start(scope), events).ctl, Send(text, key, sessionId)).Success?
    ensures var w := After(Start(scope), events);
            var v := Step(w, Call(Send(text, key, sessionId)));
            && w.ctl.log.confirmations != [] && v.ctl.log.creates != []
            && var last := w.ctl.log.confirmations[|w.ctl.log.confirmations| - 1];
               var messages := v.ctl.log.creates[|v.ctl.log.creates| - 1].request.messages;
               var n := |messages|;
               && n > 0 && messages[n - 1] == Turn(User, text)
               && if Utf8Length(last.question) + Utf8Length(last.answer) <= 18_000
                  then n >= 3 && messages[n - 3] == Turn(User, last.question) && messages[n - 2] == Turn(Assistant, last.answer)
                  else n == 1
  {
    hide After, Paired, Fits, PairsOf, BoundedHistory, WorldInv;
    EveryRunIsConfirmed(scope, events);
    EveryContextIsKnown(scope, events);
    var c := After(Start(scope), events).ctl;
    TrimDropsExactly(c.confirmed);
    BoundedHistoryIsSuffix(c.confirmed);
    SendCarries(After(Start(scope), events), text, key, sessionId);
    SendDropsExactly(scope, events, text, key, sessionId);
    assert BoundedHistory(c.confirmed) == c.confirmed;
  }

  lemma SendCarries(w: World, text: Text, key: Id, sessionId: Option<Id>)
    requires Begin(w.ctl, Send(text, key, sessionId)).Success?
    ensures var log := Step(w, Call(Send(text, key, sessionId))).ctl.log;
            log.creates != [] && log.creates[|log.creates| - 1].request.messages == BoundedHistory(w.ctl.confirmed) + [Turn(User, text)]
  {
    hide BoundedHistory, SendSession, SendLimited, SendIssue;
  }

  /** A step leaves the confirmations as they are or adds one, and then it shows
      exactly that run as completed with exactly that text. */
  lemma ConfirmationsAreShown(scope: Scope, events: seq<Event>, e: Event)
    ensures var c, d := After(Start(scope), events).ctl, Step(After(Start(scope), events), e).ctl;
            || d.log.confirmations == c.log.confirmations
            || (&& d.log.confirmations != []
                && var last := d.log.confirmations[|d.log.confirmations| - 1];
                   && d.log.confirmations == c.log.confirmations + [last]
                   && d.view.phase == Completed && d.view.runId == Some(last.runId) && d.view.output == last.answer)
  {
    hide After, WorldInv, Step;
    EveryRunKeepsInv(scope, events);
    StepShowsConfirmation(After(Start(scope), events), e);
  }

  lemma StepShowsConfirmation(w: World, e: Event)
    requires WorldInv(w)
    ensures var c, d := w.ctl, Step(w, e).ctl;
            || d.log.confirmations == c.log.confirmations
            || (&& d.log.confirmations != []
                && var last := LastConfirmation(d.log);
                   && d.log.confirmations == c.log.confirmations + [last]
                   && d.view.phase == Completed && d.view.runId == Some(last.runId) && d.view.output == last.answer)
  {
    hide LedgerInv, ResponsibilityInv, CoreInv, Begin, Resume, ContinuationOk, OnEvent, OnInterrupted;
    match e {
      case Call(command) =>
        if Begin(w.ctl, command).Success? {
          BeginConfirmsNothing(w.ctl, command);
        }
      case Answer(ticket, reply) =>
        if ticket in w.pending {
          assert PendingOk(w, ticket);
          ResumeAccounts(w.ctl, w.pending[ticket], reply);
          AccountedShows(w.ctl, Resume(w.ctl, w.pending[ticket], reply).ctl);
        }
      case Streamed(index, event) =>
        if index < |w.ctl.subscriptions| {
          EventConfirmsNothing(w.ctl, index, event);
        }
      case StreamLost(index, code) =>
        if index < |w.ctl.subscriptions| {
          LossConfirmsNothing(w.ctl, index, code);
        }
      case _ =>
    }
  }

  lemma AccountedShows(c: Ctl, d: Ctl)
    requires Accounted(c, d)
    ensures || d.log.confirmations == c.log.confirmations
            || (&& d.log.confirmations != []
                && var last := LastConfirmation(d.log);
                   && d.log.confirmations == c.log.confirmations + [last]
                   && d.view.phase == Completed && d.view.runId == Some(last.runId) && d.view.output == last.answer)
  {
    hide EndsWith, Paired;
  }

  lemma BeginConfirmsNothing(c: Ctl, command: Command)
    requires Begin(c, command).Success?
    ensures Begin(c, command).value.ctl.log.confirmations == c.log.confirmations
  {
    hide BoundedHistory;
  }

  lemma EventConfirmsNothing(c: Ctl, i: nat, event: StreamEvent)
    requires i < |c.subscriptions|
    ensures OnEvent(c, i, event).ctl.log == c.log
  {
    hide Accepts, Fresh;
  }

  lemma LossConfirmsNothing(c: Ctl, i: nat, code: Code)
    requires i < |c.subscriptions|
    ensures OnInterrupted(c, i, code).ctl.log == c.log
  {
    hide Accepts;
  }
}
