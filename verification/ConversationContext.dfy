/** What the model context is made of: where confirmed pairs come from, when they
    fit the two bounds, and when a send or a confirmation drops some. */
module ConversationContext {
  import opened Wrappers
  import opened JsText
  import opened ConfirmedHistory
  import opened ConversationTypes
  import opened SessionHistory
  import opened ConversationRun
  import opened ConversationInvariants
  import opened ConversationLedger
  import opened ConversationWorld

  // ---------- Trimming ----------

  /** Trimming whole pairs drops some exactly when they do not all fit. */
  lemma TrimDropsExactly(turns: seq<Turn>)
    requires Paired(turns)
    ensures |BoundedHistory(turns)| < |turns| <==> !Fits(PairsOf(turns))
    ensures Paired(BoundedHistory(turns)) && Fits(PairsOf(BoundedHistory(turns)))
  {
    var pairs := PairsOf(turns);
    BoundedPairsIsLongestFit(pairs, 0);
    assert pairs[0..] == pairs;
    PairsOfFlatten(BoundedPairs(pairs));
  }

  /** A confirmation keeps whole pairs that fit, and flags exactly its own loss. */
  lemma ConfirmFlagsLoss(c: Ctl, run: Run)
    requires Paired(c.confirmed) && Confirm(c, run) != c
    ensures var d := Confirm(c, run);
            && c.request.Some? && run.output.Some?
            && Paired(d.confirmed) && Fits(PairsOf(d.confirmed))
            && var grown := c.confirmed + PairTurns(Pair(c.request.value.text, run.output.value));
               && (|d.confirmed| < |grown| <==> !Fits(PairsOf(grown)))
               && (d.contextLimited <==> c.contextLimited || |d.confirmed| < |grown|)
  {
    hide BoundedHistory, Flatten, Paired;
    var request := c.request.value;
    PairedAppend(c.confirmed, request.text, run.output.value);
    TrimDropsExactly(c.confirmed + PairTurns(Pair(request.text, run.output.value)));
  }

  // ---------- The invariant ----------

  ghost predicate PayloadFits(request: Request) {
    && request.messages != []
    && Fits(PairsOf(request.messages[..|request.messages| - 1]))
  }

  /** Without an active request the context is what the last opening restored. */
  ghost predicate Restored(confirmed: seq<Turn>, rows: seq<HistoryRow>) {
    exists m :: 0 <= m <= |rows| && RestoredFrom(confirmed, rows, m)
  }

  ghost predicate RestoredFrom(confirmed: seq<Turn>, rows: seq<HistoryRow>, m: nat)
    requires m <= |rows|
  {
    confirmed == TakeLast(Flatten(VerifiedPairs(rows[..m])), MAX_CONFIRMED_TURNS)
  }

  ghost predicate ContextInv(c: Ctl) {
    && Paired(c.confirmed)
    && (c.request.Some? ==> Fits(PairsOf(c.confirmed)) && PayloadFits(c.request.value))
    && (c.request.None? ==> Restored(c.confirmed, c.log.rows))
    && forall i :: 0 <= i < |c.log.creates| ==> PayloadFits(c.log.creates[i].request)
  }

  ghost predicate SameContext(c: Ctl, d: Ctl) {
    && d.confirmed == c.confirmed && d.request == c.request
    && d.log.creates == c.log.creates && d.log.rows == c.log.rows
  }

  ghost predicate Forgotten(c: Ctl, d: Ctl) {
    d.confirmed == [] && d.request.None? && d.log.creates == c.log.creates
  }

  lemma NothingIsRestored(rows: seq<HistoryRow>)
    ensures Restored([], rows) && Paired([])
  {
    assert rows[..0] == [] && VerifiedPairs([]) == [] && Flatten([]) == [];
    assert RestoredFrom([], rows, 0);
  }

  lemma ContextFrame(c: Ctl, d: Ctl)
    requires ContextInv(c) && (SameContext(c, d) || Forgotten(c, d))
    ensures ContextInv(d)
  {
    hide Paired, Restored, PayloadFits, Fits, PairsOf;
    NothingIsRestored(d.log.rows);
  }

  lemma ConfirmKeepsContext(c: Ctl, run: Run)
    requires ContextInv(c)
    ensures ContextInv(Confirm(c, run))
  {
    hide Paired, Restored, PayloadFits, Fits, PairsOf, BoundedHistory;
    if Confirm(c, run) != c {
      ConfirmFlagsLoss(c, run);
    }
  }

  lemma SettleKeepsContext(c: Ctl, lease: Lease, run: Run, withSession: bool)
    requires ContextInv(c)
    ensures ContextInv(Settle(c, lease, run, withSession))
  {
    hide ContextInv, Confirm;
    ConfirmKeepsContext(c, run);
    ContextFrame(Confirm(c, run), Settle(c, lease, run, withSession));
  }

  // ---------- Commands ----------

  lemma SentPayloadFits(request: Request, confirmed: seq<Turn>)
    requires request.messages == BoundedHistory(confirmed) + [Turn(User, request.text)]
    ensures PayloadFits(request) && Paired(BoundedHistory(confirmed)) && Fits(PairsOf(BoundedHistory(confirmed)))
  {
    var context := BoundedHistory(confirmed);
    assert request.messages[..|request.messages| - 1] == context;
    PairsOfFlatten(BoundedPairs(PairsOf(confirmed)));
    BoundedPairsIsLongestFit(PairsOf(confirmed), 0);
  }

  lemma BeginKeepsContext(c: Ctl, command: Command)
    requires ContextInv(c) && Begin(c, command).Success?
    ensures ContextInv(Begin(c, command).value.ctl)
  {
    hide Paired, Restored, PayloadFits, Fits, PairsOf, BoundedHistory;
    var d := Begin(c, command).value.ctl;
    match command {
      case Send(text, key, continueIn) =>
        SentPayloadFits(SendRequest(c, text, key, continueIn), c.confirmed);
      case Retry =>
      case _ =>
        ContextFrame(c, d);
    }
  }

  // ---------- Replies ----------

  lemma RunReplyKeepsContext(c: Ctl, k: Continuation, reply: Reply)
    requires ContextInv(c)
    requires k.AwaitReconnect? || k.AwaitCancel? || k.AwaitCancelReadback? || k.AwaitCheckpoint? || k.AwaitCheckpointReadback?
    ensures ContextInv(Resume(c, k, reply).ctl)
  {
    hide ContextInv, Settle, Verify, AsRun, ReadbackCode;
    var d := Resume(c, k, reply).ctl;
    var sessionId := if k.AwaitReconnect? then c.view.sessionId else Some(k.sessionId);
    if !reply.Refused? && Verify(reply, k.lease.scope, k.runId, sessionId).Success? {
      var run := Verify(reply, k.lease.scope, k.runId, sessionId).value;
      var raised := c.(markersRequired := c.markersRequired + 1);
      ContextFrame(c, raised);
      SettleKeepsContext(c, k.lease, run, true);
      SettleKeepsContext(c, k.lease, run, false);
      SettleKeepsContext(raised, k.lease, run, true);
    } else {
      ContextFrame(c, d);
    }
  }

  lemma FailRefreshKeepsContext(c: Ctl)
    requires ContextInv(c)
    ensures forall code :: ContextInv(FailRefresh(c, code))
  {
    hide ContextInv;
    forall code
      ensures ContextInv(FailRefresh(c, code))
    {
      ContextFrame(c, FailRefresh(c, code));
    }
  }

  lemma RefreshKeepsContext(c: Ctl, k: Continuation, reply: Reply)
    requires ContextInv(c) && k.AwaitRefresh?
    ensures ContextInv(Resume(c, k, reply).ctl)
  {
    hide ContextInv, ApplyRefresh, FailRefresh, Verify, AsRun;
    if !reply.Refused? && Verify(reply, k.lease.scope, k.runId, Some(k.sessionId)).Success? {
      var run := Verify(reply, k.lease.scope, k.runId, Some(k.sessionId)).value;
      ApplyRefreshKeepsContext(c, k.lease, run);
    }
    FailRefreshKeepsContext(c);
  }

  lemma ApplyRefreshKeepsContext(c: Ctl, lease: Lease, run: Run)
    requires ContextInv(c)
    ensures ContextInv(ApplyRefresh(c, lease, run))
  {
    hide ContextInv, Confirm, ShowAndAttach, Detach;
    var d := Confirm(c, run);
    ConfirmKeepsContext(c, run);
    DetachKeepsContext(d);
    AttachKeepsContext(Detach(d), lease, run);
    ContextFrame(Detach(d), Detach(d).(markersRequired := UNKNOWN_MARKERS));
    AttachKeepsContext(Detach(d).(markersRequired := UNKNOWN_MARKERS), lease, run);
    ContextFrame(d, d.(view := d.view.(canonicalStatus := Some(run.status), errorCode := None)));
  }

  lemma DetachKeepsContext(c: Ctl)
    requires ContextInv(c)
    ensures ContextInv(Detach(c))
  {
    hide ContextInv;
    ContextFrame(c, Detach(c));
  }

  lemma AttachKeepsContext(c: Ctl, lease: Lease, run: Run)
    requires ContextInv(c)
    ensures ContextInv(ShowAndAttach(c, lease, run, true))
  {
    hide ContextInv;
    ContextFrame(c, ShowAndAttach(c, lease, run, true));
  }

  lemma ApplyReconcileKeepsContext(c: Ctl, run: Run)
    requires ContextInv(c)
    ensures ContextInv(ApplyReconcile(c, run))
  {
    hide ContextInv, Confirm;
    var d := ApplyReconcile(c, run);
    ConfirmKeepsContext(c, run);
    if SameContext(Confirm(c, run), d) {
      ContextFrame(Confirm(c, run), d);
    } else {
      ContextFrame(c, d);
    }
  }

  lemma ReconcileKeepsContext(c: Ctl, k: Continuation, reply: Reply)
    requires ContextInv(c) && k.AwaitReconcile?
    ensures ContextInv(Resume(c, k, reply).ctl)
  {
    hide ContextInv, ApplyReconcile, AsRun;
    var d := Resume(c, k, reply).ctl;
    if !reply.Refused? && AsRun(reply, k.lease.scope, Some(k.runId)).Success? {
      ApplyReconcileKeepsContext(c, AsRun(reply, k.lease.scope, Some(k.runId)).value);
    }
    if SameContext(c, d) {
      ContextFrame(c, d);
    }
  }

  lemma FinishOpenKeepsContext(c: Ctl, sessionId: Id, rows: seq<HistoryRow>, more: Option<int>)
    requires ContextInv(c) && c.request.None?
    ensures ContextInv(FinishOpen(c, sessionId, rows, more).ctl)
  {
    hide Render, RunIds, OpenedView, PayloadFits, VerifiedPairs, Flatten, LimitsContext;
    var d := FinishOpen(c, sessionId, rows, more).ctl;
    TakeLastPairs(VerifiedPairs(rows), MAX_PAIRS);
    PairsOfFlatten(TakeLast(VerifiedPairs(rows), MAX_PAIRS));
    assert rows[..|rows|] == rows;
    assert RestoredFrom(d.confirmed, d.log.rows, |rows|);
  }

  lemma PageKeepsContext(c: Ctl, k: Continuation, reply: Reply)
    requires ContextInv(c) && k.AwaitPage? && ContinuationOk(c, k)
    ensures ContextInv(Resume(c, k, reply).ctl)
  {
    hide ContextInv, FinishOpen, DistinctRuns, RowsAdmissible;
    var d := Resume(c, k, reply).ctl;
    if reply.PageReply? && Valid(c, k.lease) {
      FinishOpenKeepsContext(c, k.sessionId, k.rows + reply.page.rows,
                             if reply.page.hasMore then reply.page.nextOffset else None);
    }
    if SameContext(c, d) {
      ContextFrame(c, d);
    }
  }

  lemma OlderKeepsContext(c: Ctl, k: Continuation, reply: Reply)
    requires ContextInv(c) && k.AwaitOlder?
    ensures ContextInv(Resume(c, k, reply).ctl)
  {
    hide Paired, PayloadFits, Fits, PairsOf, RunIds, Render, RestoredFrom, RowsAdmissible, DistinctRuns;
    var d := Resume(c, k, reply).ctl;
    if d != c && c.request.None? {
      var m :| 0 <= m <= |c.log.rows| && RestoredFrom(c.confirmed, c.log.rows, m);
      MoreRowsRestore(c.confirmed, c.log.rows, d.log.rows, m);
    }
  }

  lemma MoreRowsRestore(confirmed: seq<Turn>, rows: seq<HistoryRow>, more: seq<HistoryRow>, m: nat)
    requires m <= |rows| && rows <= more && RestoredFrom(confirmed, rows, m)
    ensures RestoredFrom(confirmed, more, m)
  {
    assert more[..m] == rows[..m];
  }

  lemma CreateKeepsContext(c: Ctl, lease: Lease, request: Request, reply: Reply)
    requires ContextInv(c)
    ensures ContextInv(ResumeCreate(c, lease, request, reply).ctl)
  {
    hide ContextInv, AsRun, PhaseOf;
    ContextFrame(c, ResumeCreate(c, lease, request, reply).ctl);
  }

  lemma RecoverKeepsContext(c: Ctl, lease: Lease, runId: Id, reply: Reply)
    requires ContextInv(c)
    ensures ContextInv(ResumeRecover(c, lease, runId, reply).ctl)
  {
    hide ContextInv, Verify, AsRun, PhaseOf;
    ContextFrame(c, ResumeRecover(c, lease, runId, reply).ctl);
  }

  lemma ResumeKeepsContext(c: Ctl, k: Continuation, reply: Reply)
    requires ContextInv(c) && ContinuationOk(c, k)
    ensures ContextInv(Resume(c, k, reply).ctl)
  {
    hide ContextInv, ContinuationOk, ResumeCreate, ResumeReconnect, ResumeCancel, ResumeRefresh, ResumeCheckpoint,
      ResumeReadback, ResumeReconcile, ResumePage, ResumeOlder, ResumeRecover;
    match k {
      case AwaitPage(_, _, _, _, _) => PageKeepsContext(c, k, reply);
      case AwaitOlder(_, _, _, _) => OlderKeepsContext(c, k, reply);
      case AwaitRefresh(_, _, _, _) => RefreshKeepsContext(c, k, reply);
      case AwaitReconcile(_, _) => ReconcileKeepsContext(c, k, reply);
      case AwaitCreate(lease, request) => CreateKeepsContext(c, lease, request, reply);
      case AwaitRecover(lease, runId) => RecoverKeepsContext(c, lease, runId, reply);
      case _ => RunReplyKeepsContext(c, k, reply);
    }
  }

  lemma StreamKeepsContext(c: Ctl, i: nat, event: StreamEvent)
    requires ContextInv(c) && i < |c.subscriptions|
    ensures ContextInv(OnEvent(c, i, event).ctl)
  {
    hide ContextInv, Accepts, Fresh;
    ContextFrame(c, OnEvent(c, i, event).ctl);
  }

  lemma LostStreamKeepsContext(c: Ctl, i: nat, code: Code)
    requires ContextInv(c) && i < |c.subscriptions|
    ensures ContextInv(OnInterrupted(c, i, code).ctl)
  {
    hide ContextInv, Accepts;
    ContextFrame(c, OnInterrupted(c, i, code).ctl);
  }

  // ---------- Every run ----------

  lemma StepKeepsContext(w: World, e: Event)
    requires WorldInv(w) && ContextInv(w.ctl)
    ensures ContextInv(Step(w, e).ctl)
  {
    hide CoreInv, LedgerInv, ResponsibilityInv, ContextInv, Begin, Resume, ContinuationOk, OnEvent, OnInterrupted;
    match e {
      case Call(command) =>
        if Begin(w.ctl, command).Success? {
          BeginKeepsContext(w.ctl, command);
        }
      case Answer(ticket, reply) =>
        if ticket in w.pending {
          assert PendingOk(w, ticket);
          ResumeKeepsContext(w.ctl, w.pending[ticket], reply);
        }
      case Streamed(index, event) =>
        if index < |w.ctl.subscriptions| {
          StreamKeepsContext(w.ctl, index, event);
        }
      case StreamLost(index, code) =>
        if index < |w.ctl.subscriptions| {
          LostStreamKeepsContext(w.ctl, index, code);
        }
      case Retargeted(scope) => ContextFrame(w.ctl, Step(w, e).ctl);
      case Closed => ContextFrame(w.ctl, Step(w, e).ctl);
    }
  }

  lemma {:induction false} RunKeepsContext(w: World, events: seq<Event>)
    requires WorldInv(w) && ContextInv(w.ctl)
    ensures ContextInv(After(w, events).ctl)
    decreases |events|
  {
    hide WorldInv, ContextInv, Step;
    if events != [] {
      StepKeepsContext(w, events[0]);
      StepKeepsInv(w, events[0]);
      RunKeepsContext(Step(w, events[0]), events[1..]);
    }
  }

  lemma EveryContextIsKnown(scope: Scope, events: seq<Event>)
    ensures ContextInv(After(Start(scope), events).ctl)
  {
    hide After, WorldInv;
    StartInv(scope);
    NothingIsRestored([]);
    RunKeepsContext(Start(scope), events);
  }

  // ---------- What a send drops ----------

  /** Context that a send would leave out: fewer turns than are confirmed. */
  predicate SendDrops(c: Ctl, text: Text, key: Id, sessionId: Option<Id>) {
    |SendRequest(c, text, key, sessionId).messages| - 1 < |c.confirmed|
  }

  /** In every reachable state a send drops context exactly when no request is
      active and the pairs that the last opening restored do not all fit. */
  lemma SendDropsExactly(scope: Scope, events: seq<Event>, text: Text, key: Id, sessionId: Option<Id>)
    ensures var c := After(Start(scope), events).ctl;
            && (SendDrops(c, text, key, sessionId) <==> c.request.None? && !Fits(PairsOf(c.confirmed)))
            && (c.request.None? ==> Restored(c.confirmed, c.log.rows))
  {
    hide After, BoundedHistory, Fits, PairsOf, Paired, Restored;
    EveryContextIsKnown(scope, events);
    TrimDropsExactly(After(Start(scope), events).ctl.confirmed);
  }

  /** A send that drops context shows that it did, except in exactly this state: no
      request is active, the restored pairs do not fit, nothing was missing when
      they were restored, the view is not canceled, and the newest pair fits or no
      session was named. */
  lemma DropsAreFlaggedExactly(scope: Scope, events: seq<Event>, text: Text, key: Id, sessionId: Option<Id>)
    ensures var c := After(Start(scope), events).ctl;
            BeginSend(c, text, key, sessionId).Success? ==>
              var sent := BeginSend(c, text, key, sessionId).value.ctl;
              (SendDrops(c, text, key, sessionId) && !sent.view.contextLimited)
              <==> (&& c.request.None? && !Fits(PairsOf(c.confirmed))
                    && !c.contextLimited && c.view.phase != Canceled
                    && (sessionId.GetOr("") == "" || BoundedHistory(c.confirmed) != []))
  {
    hide After, Fits, PairsOf, Paired, BoundedHistory, IsBlank, IsSafeId;
    SendDropsExactly(scope, events, text, key, sessionId);
  }
}
