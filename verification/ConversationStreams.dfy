/** The attached stream over whole runs: while it accepts events it listens as the
    reference definition demands, and a terminal view never gains one. */
module ConversationStreams {
  import opened Wrappers
  import opened JsText
  import opened ConfirmedHistory
  import opened ConversationTypes
  import opened SessionHistory
  import opened ConversationRun
  import opened ConversationInvariants
  import opened ConversationLedger
  import opened ConversationWorld
  import opened ConversationTheorems
  import opened ConversationViews
  import opened DeltaStream

  /** The marker gate of the attached subscription agrees with its count, and the
      text it appends to is within the limit. */
  ghost predicate GateInv(c: Ctl) {
    c.unsubscribe.Some? ==>
      && c.unsubscribe.value < |c.subscriptions|
      && (c.awaitingMarker <==> MarkersMissing(c, c.unsubscribe.value) > 0)
      && |c.view.output| <= MAX_OUTPUT
  }

  /** A step from c to d attaches only under a view that is not terminal. */
  ghost predicate AttachesGoing(c: Ctl, d: Ctl) {
    d.unsubscribe.None? || d.unsubscribe == c.unsubscribe || !Terminal(d.view.phase)
  }

  ghost predicate StreamStep(c: Ctl, d: Ctl) {
    GateInv(d) && AttachesGoing(c, d)
  }

  ghost predicate SameGate(c: Ctl, d: Ctl) {
    && d.unsubscribe == c.unsubscribe && d.subscriptions == c.subscriptions
    && d.markersRequired == c.markersRequired && d.awaitingMarker == c.awaitingMarker
    && (d.view.output == c.view.output || |d.view.output| <= MAX_OUTPUT)
  }

  lemma GateFrame(c: Ctl, d: Ctl)
    requires GateInv(c) && (SameGate(c, d) || d.unsubscribe.None?)
    ensures StreamStep(c, d)
  {
  }

  // ---------- Pieces ----------

  /** Every run that the projection admits has its output clipped to the limit. */
  predicate Clipped(run: Run) {
    run.output.Some? ==> |run.output.value| <= MAX_OUTPUT
  }

  lemma AdmittedRunIsClipped(reply: Reply, scope: Scope, runId: Option<Id>)
    requires !reply.Refused? && AsRun(reply, scope, runId).Success?
    ensures Clipped(AsRun(reply, scope, runId).value)
  {
  }

  lemma VerifiedRunIsClipped(reply: Reply, scope: Scope, runId: Id, sessionId: Option<Id>)
    requires !reply.Refused? && Verify(reply, scope, runId, sessionId).Success?
    ensures Clipped(Verify(reply, scope, runId, sessionId).value)
  {
    hide AsRun;
    AdmittedRunIsClipped(reply, scope, Some(runId));
  }

  lemma SubscribeListens(c: Ctl, lease: Lease, runId: Id)
    requires |c.view.output| <= MAX_OUTPUT
    ensures GateInv(Subscribe(c, lease, runId))
  {
  }

  lemma ConfirmKeepsGate(c: Ctl, run: Run)
    ensures SameGate(c, Confirm(c, run)) && Confirm(c, run).view == c.view
  {
    hide BoundedHistory;
  }

  lemma ShowAndAttachSteps(c: Ctl, lease: Lease, run: Run, withSession: bool)
    requires GateInv(c) && Clipped(run)
    ensures StreamStep(c, ShowAndAttach(c, lease, run, withSession))
  {
    hide Subscribe;
    var shown := ShowSettled(c, run);
    var bound := if withSession then ShowSession(shown, run) else shown;
    GateFrame(c, bound);
    SubscribeListens(bound, lease, run.runId);
    SubscribeShows(bound, lease, run.runId);
  }

  lemma SubscribeShows(c: Ctl, lease: Lease, runId: Id)
    ensures Subscribe(c, lease, runId).view == c.view
  {
  }

  lemma SettleSteps(c: Ctl, lease: Lease, run: Run, withSession: bool)
    requires GateInv(c) && Clipped(run)
    ensures StreamStep(c, Settle(c, lease, run, withSession))
  {
    hide Confirm, ShowAndAttach;
    ConfirmKeepsGate(c, run);
    ShowAndAttachSteps(Confirm(c, run), lease, run, withSession);
  }

  /** Raising the required markers goes with a new subscription. */
  lemma RaisedSettleSteps(c: Ctl, lease: Lease, run: Run)
    requires GateInv(c) && Clipped(run) && PhaseOf(run.status) == Running
    ensures StreamStep(c, Settle(c.(markersRequired := c.markersRequired + 1), lease, run, true))
  {
    hide Confirm, Subscribe;
    var raised := c.(markersRequired := c.markersRequired + 1);
    ConfirmKeepsGate(raised, run);
    var bound := ShowSession(ShowSettled(Confirm(raised, run), run), run);
    SubscribeListens(bound, lease, run.runId);
    SubscribeShows(bound, lease, run.runId);
  }

  // ---------- Commands ----------

  lemma BeginSteps(c: Ctl, command: Command)
    requires GateInv(c) && Begin(c, command).Success?
    ensures StreamStep(c, Begin(c, command).value.ctl)
  {
    hide BoundedHistory, GateInv, StreamStep;
    GateFrame(c, Begin(c, command).value.ctl);
  }

  // ---------- Replies ----------

  lemma ControlReplySteps(c: Ctl, k: Continuation, reply: Reply)
    requires GateInv(c)
    requires k.AwaitReconnect? || k.AwaitCancel? || k.AwaitCancelReadback? || k.AwaitCheckpointReadback?
    ensures StreamStep(c, Resume(c, k, reply).ctl)
  {
    hide GateInv, StreamStep, Settle, Verify, AsRun, ReadbackCode;
    var d := Resume(c, k, reply).ctl;
    var sessionId := if k.AwaitReconnect? then c.view.sessionId else Some(k.sessionId);
    if !reply.Refused? && Verify(reply, k.lease.scope, k.runId, sessionId).Success? {
      var run := Verify(reply, k.lease.scope, k.runId, sessionId).value;
      VerifiedRunIsClipped(reply, k.lease.scope, k.runId, sessionId);
      SettleSteps(c, k.lease, run, !(k.AwaitCancelReadback? || k.AwaitCheckpointReadback?));
    }
    if SameGate(c, d) {
      GateFrame(c, d);
    }
  }

  lemma CheckpointReplySteps(c: Ctl, k: Continuation, reply: Reply)
    requires GateInv(c) && k.AwaitCheckpoint?
    ensures StreamStep(c, Resume(c, k, reply).ctl)
  {
    hide GateInv, StreamStep, Settle, Verify, AsRun;
    var d := Resume(c, k, reply).ctl;
    if !reply.Refused? && Verify(reply, k.lease.scope, k.runId, Some(k.sessionId)).Success? {
      var run := Verify(reply, k.lease.scope, k.runId, Some(k.sessionId)).value;
      VerifiedRunIsClipped(reply, k.lease.scope, k.runId, Some(k.sessionId));
      SettleSteps(c, k.lease, run, true);
      if PhaseOf(run.status) == Running {
        RaisedSettleSteps(c, k.lease, run);
      }
    }
    if SameGate(c, d) {
      GateFrame(c, d);
    }
  }

  lemma ApplyRefreshSteps(c: Ctl, lease: Lease, run: Run)
    requires GateInv(c) && Clipped(run)
    ensures StreamStep(c, ApplyRefresh(c, lease, run))
  {
    hide Confirm, ShowAndAttach, Terminal;
    var d := Confirm(c, run);
    ConfirmKeepsGate(c, run);
    var e := Detach(d);
    var f := if PhaseOf(run.status) == Running then e.(markersRequired := UNKNOWN_MARKERS) else e;
    assert f.unsubscribe.None?;
    ShowAndAttachSteps(f, lease, run, true);
  }

  lemma RefreshReplySteps(c: Ctl, k: Continuation, reply: Reply)
    requires GateInv(c) && k.AwaitRefresh?
    ensures StreamStep(c, Resume(c, k, reply).ctl)
  {
    hide GateInv, StreamStep, ApplyRefresh, Verify, AsRun, IsReadbackIssue;
    var d := Resume(c, k, reply).ctl;
    if !reply.Refused? && Verify(reply, k.lease.scope, k.runId, Some(k.sessionId)).Success? {
      VerifiedRunIsClipped(reply, k.lease.scope, k.runId, Some(k.sessionId));
      ApplyRefreshSteps(c, k.lease, Verify(reply, k.lease.scope, k.runId, Some(k.sessionId)).value);
    }
    if SameGate(c, d) || d.unsubscribe.None? {
      GateFrame(c, d);
    }
  }

  lemma ApplyReconcileSteps(c: Ctl, run: Run)
    requires GateInv(c) && Clipped(run)
    ensures StreamStep(c, ApplyReconcile(c, run))
  {
    hide GateInv, StreamStep, Confirm, PhaseOf;
    ConfirmKeepsGate(c, run);
    GateFrame(c, ApplyReconcile(c, run));
  }

  lemma ReconcileReplySteps(c: Ctl, k: Continuation, reply: Reply)
    requires GateInv(c) && k.AwaitReconcile?
    ensures StreamStep(c, Resume(c, k, reply).ctl)
  {
    hide GateInv, StreamStep, ApplyReconcile, AsRun;
    var d := Resume(c, k, reply).ctl;
    if !reply.Refused? && AsRun(reply, k.lease.scope, Some(k.runId)).Success? {
      AdmittedRunIsClipped(reply, k.lease.scope, Some(k.runId));
      ApplyReconcileSteps(c, AsRun(reply, k.lease.scope, Some(k.runId)).value);
    }
    if SameGate(c, d) {
      GateFrame(c, d);
    }
  }

  lemma CreateReplySteps(c: Ctl, lease: Lease, request: Request, reply: Reply)
    requires GateInv(c)
    ensures StreamStep(c, ResumeCreate(c, lease, request, reply).ctl)
  {
    hide GateInv, AsRun, Subscribe, PhaseOf;
    var d := ResumeCreate(c, lease, request, reply).ctl;
    if !reply.Refused? && AsRun(reply, lease.scope, None).Success? {
      var run := AsRun(reply, lease.scope, None).value;
      var shown := ShowCreated(c, request, run);
      AdmittedRunIsClipped(reply, lease.scope, None);
      SubscribeListens(shown, lease, run.runId);
      SubscribeShows(shown, lease, run.runId);
    }
    if SameGate(c, d) || d.unsubscribe.None? {
      GateFrame(c, d);
    }
  }

  lemma RecoverReplySteps(c: Ctl, lease: Lease, runId: Id, reply: Reply)
    requires GateInv(c) && (ResumeRecover(c, lease, runId, reply).ctl != c ==> c.unsubscribe.None?)
    ensures StreamStep(c, ResumeRecover(c, lease, runId, reply).ctl)
  {
    hide GateInv, Verify, Subscribe, PhaseOf;
    var d := ResumeRecover(c, lease, runId, reply).ctl;
    if !reply.Refused? && Verify(reply, lease.scope, runId, None).Success? {
      var run := Verify(reply, lease.scope, runId, None).value;
      VerifiedRunIsClipped(reply, lease.scope, runId, None);
      SubscribeListens(ShowRecovered(c, run), lease, run.runId);
      SubscribeShows(ShowRecovered(c, run), lease, run.runId);
    }
    if d == c || d.unsubscribe.None? {
      GateFrame(c, d);
    }
  }

  lemma PageReplySteps(c: Ctl, k: Continuation, reply: Reply)
    requires GateInv(c) && (k.AwaitPage? || k.AwaitOlder?)
    requires k.AwaitPage? && Resume(c, k, reply).ctl != c ==> c.unsubscribe.None?
    ensures StreamStep(c, Resume(c, k, reply).ctl)
  {
    hide GateInv, StreamStep, Render, VerifiedPairs, Flatten, RunIds, RowsAdmissible, DistinctRuns, OpenedView;
    GateFrame(c, Resume(c, k, reply).ctl);
  }

  lemma OpeningReplySteps(c: Ctl, k: Continuation, reply: Reply)
    requires GateInv(c) && CoreInv(c) && ContinuationOk(c, k) && Opening(k)
    ensures StreamStep(c, Resume(c, k, reply).ctl)
  {
    hide GateInv, StreamStep, StreamInv, ContinuationOk, ResumeCreate, ResumePage, ResumeRecover;
    if Resume(c, k, reply).ctl != c {
      OpeningHasNoRun(c, k, reply);
      NoRunNoStream(c);
    }
    match k {
      case AwaitCreate(lease, request) => CreateReplySteps(c, lease, request, reply);
      case AwaitRecover(lease, runId) => RecoverReplySteps(c, lease, runId, reply);
      case _ => PageReplySteps(c, k, reply);
    }
  }

  lemma ResumeSteps(c: Ctl, k: Continuation, reply: Reply)
    requires GateInv(c) && CoreInv(c) && ContinuationOk(c, k)
    ensures StreamStep(c, Resume(c, k, reply).ctl)
  {
    hide GateInv, StreamStep, CoreInv, ContinuationOk, Resume;
    if Opening(k) {
      OpeningReplySteps(c, k, reply);
    } else if k.AwaitRefresh? {
      RefreshReplySteps(c, k, reply);
    } else if k.AwaitReconcile? {
      ReconcileReplySteps(c, k, reply);
    } else if k.AwaitCheckpoint? {
      CheckpointReplySteps(c, k, reply);
    } else if k.AwaitOlder? {
      PageReplySteps(c, k, reply);
    } else {
      ControlReplySteps(c, k, reply);
    }
  }

  // ---------- Callbacks ----------

  lemma EventSteps(c: Ctl, i: nat, event: StreamEvent)
    requires GateInv(c) && StreamInv(c) && i < |c.subscriptions|
    ensures StreamStep(c, OnEvent(c, i, event).ctl)
  {
    hide StreamInv, Accepts, Fresh;
    if Accepts(c, c.subscriptions[i]) {
      OnlyAttachedStreamIsHeard(c, i);
    }
  }

  lemma InterruptionSteps(c: Ctl, i: nat, code: Code)
    requires GateInv(c) && i < |c.subscriptions|
    ensures StreamStep(c, OnInterrupted(c, i, code).ctl)
  {
    hide GateInv, StreamStep, Accepts;
    GateFrame(c, OnInterrupted(c, i, code).ctl);
  }

  // ---------- Every run ----------

  lemma EveryStep(w: World, e: Event)
    requires WorldInv(w) && GateInv(w.ctl)
    ensures StreamStep(w.ctl, Step(w, e).ctl)
  {
    hide LedgerInv, ResponsibilityInv, GateInv, StreamStep, StreamInv, Begin, Resume, ContinuationOk, OnEvent, OnInterrupted;
    GateFrame(w.ctl, w.ctl);
    match e {
      case Call(command) =>
        if Begin(w.ctl, command).Success? {
          BeginSteps(w.ctl, command);
        }
      case Answer(ticket, reply) =>
        if ticket in w.pending {
          assert PendingOk(w, ticket);
          ResumeSteps(w.ctl, w.pending[ticket], reply);
        }
      case Streamed(index, event) =>
        if index < |w.ctl.subscriptions| {
          EventSteps(w.ctl, index, event);
        }
      case StreamLost(index, code) =>
        if index < |w.ctl.subscriptions| {
          InterruptionSteps(w.ctl, index, code);
        }
      case Retargeted(scope) => GateFrame(w.ctl, Step(w, e).ctl);
      case Closed => GateFrame(w.ctl, Step(w, e).ctl);
    }
  }

  lemma {:induction false} RunKeepsGate(w: World, events: seq<Event>)
    requires WorldInv(w) && GateInv(w.ctl)
    ensures GateInv(After(w, events).ctl)
    decreases |events|
  {
    hide WorldInv, GateInv, Step;
    if events != [] {
      EveryStep(w, events[0]);
      StepKeepsInv(w, events[0]);
      RunKeepsGate(Step(w, events[0]), events[1..]);
    }
  }

  lemma EveryRunKeepsGate(scope: Scope, events: seq<Event>)
    ensures WorldInv(After(Start(scope), events)) && GateInv(After(Start(scope), events).ctl)
  {
    hide After, WorldInv;
    StartInv(scope);
    RunKeepsGate(Start(scope), events);
    EveryRunKeepsInv(scope, events);
  }

  /** No step of any run attaches a stream under a terminal view: a terminal view
      with a stream had that very stream one step before. */
  lemma TerminalNeverGainsStream(scope: Scope, events: seq<Event>, e: Event)
    ensures var w := After(Start(scope), events);
            var v := Step(w, e);
            Terminal(v.ctl.view.phase) && v.ctl.unsubscribe.Some? ==> v.ctl.unsubscribe == w.ctl.unsubscribe
  {
    hide After, WorldInv, Step, GateInv;
    EveryRunKeepsGate(scope, events);
    EveryStep(After(Start(scope), events), e);
  }

  /** In every reachable state a subscription listens exactly when it is the
      attached one and the view is not terminal. */
  lemma AttachedStreamListens(scope: Scope, events: seq<Event>, i: nat)
    ensures var c := After(Start(scope), events).ctl;
            Listening(c, i) <==> c.unsubscribe == Some(i) && !Terminal(c.view.phase)
  {
    hide After, WorldInv;
    EveryRunKeepsGate(scope, events);
    AttachedListens(After(Start(scope), events), i);
  }

  lemma AttachedListens(w: World, i: nat)
    requires WorldInv(w) && GateInv(w.ctl)
    ensures Listening(w.ctl, i) <==> w.ctl.unsubscribe == Some(i) && !Terminal(w.ctl.view.phase)
  {
    hide LedgerInv, RequestsInv, ResponsibilityInv;
    var c := w.ctl;
    if i < |c.subscriptions| {
      assert SubscriptionOk(c, i);
    }
  }

  predicate IsEnded(phase: Phase) {
    phase == Completed || phase == Failed || phase == Canceled || phase == Blocked
  }

  /** Whether a subscription is listened to, in a reachable state. */
  lemma HeardExactly(w: World, i: nat)
    requires WorldInv(w) && i < |w.ctl.subscriptions|
    ensures var c := w.ctl; var sub := c.subscriptions[i];
            && (Accepts(c, sub) <==> c.unsubscribe == Some(i) && !IsEnded(c.view.phase))
            && (c.unsubscribe == Some(i) ==> c.view.runId == Some(sub.runId) && sub.lease == LeaseOf(c))
  {
    assert SubscriptionOk(w.ctl, i);
  }

  /** In every reachable state the loss of the attached stream interrupts an unended view
      with its code and lets go of the stream; the loss of any other changes nothing. */
  lemma LossIsShownExactly(scope: Scope, events: seq<Event>, i: nat, code: Code)
    ensures var w := After(Start(scope), events);
            var c, v := w.ctl, Step(w, StreamLost(i, code));
            && v.pending == w.pending
            && if c.unsubscribe == Some(i) && !IsEnded(c.view.phase) then
                 && v.ctl.view == c.view.(phase := Interrupted, errorCode := Some(code))
                 && v.ctl.unsubscribe.None? && v.ctl.epoch == c.epoch
               else
                 v.ctl == c
  {
    hide After, WorldInv, Accepts;
    EveryRunKeepsInv(scope, events);
    var w := After(Start(scope), events);
    AttachedIsKnown(w);
    if i < |w.ctl.subscriptions| {
      HeardExactly(w, i);
    }
  }

  lemma AttachedIsKnown(w: World)
    requires WorldInv(w)
    ensures w.ctl.unsubscribe.Some? ==> w.ctl.unsubscribe.value < |w.ctl.subscriptions|
  {
  }

  /** In every reachable state an event counts exactly if it comes through the attached
      stream of an unended view, is of the scope and the run in view, is later than all
      before it and was not seen. A terminal notice then lets go of the stream and reads
      the run back; any other keeps it. An event that does not count changes nothing. */
  lemma EventsCountExactly(scope: Scope, events: seq<Event>, i: nat, event: StreamEvent)
    ensures var w := After(Start(scope), events);
            var c, v := w.ctl, Step(w, Streamed(i, event));
            var counts := c.unsubscribe == Some(i) && !IsEnded(c.view.phase) && event.scope == c.scope
                          && c.view.runId == Some(event.runId) && event.seqNo > c.lastSeq && event.eventId !in c.seen;
            if counts then
              && v.ctl.lastSeq == event.seqNo && event.eventId in v.ctl.seen
              && v.ctl.seen == (if |c.seen| >= 512 then {} else c.seen) + {event.eventId}
              && v.ctl.view == c.view.(output := v.ctl.view.output) && v.ctl.epoch == c.epoch
              && (if event.kind == TerminalNotice
                  then v.ctl.unsubscribe.None? && v.pending == w.pending[w.tickets := AwaitReconcile(LeaseOf(c), event.runId)]
                  else v.ctl.unsubscribe == c.unsubscribe && v.pending == w.pending)
            else
              v.ctl == c && v.pending == w.pending
  {
    hide After, WorldInv, Accepts, Register, AppendDelta, Detach, OnEvent;
    EveryRunKeepsInv(scope, events);
    var w := After(Start(scope), events);
    AttachedIsKnown(w);
    if i < |w.ctl.subscriptions| {
      HeardExactly(w, i);
      EventActs(w.ctl, i, event);
    }
  }

  lemma EventActs(c: Ctl, i: nat, event: StreamEvent)
    requires i < |c.subscriptions|
    ensures var sub, out := c.subscriptions[i], OnEvent(c, i, event); var d := out.ctl;
            if !Accepts(c, sub) || !Fresh(c, sub, event) then out == Done(c)
            else
              && d.lastSeq == event.seqNo && d.seen == (if |c.seen| >= 512 then {} else c.seen) + {event.eventId}
              && d.view == c.view.(output := d.view.output) && d.epoch == c.epoch && out.delivery == Nothing
              && if event.kind == TerminalNotice then d.unsubscribe.None? && out.next == Some(AwaitReconcile(sub.lease, sub.runId))
                 else d.unsubscribe == c.unsubscribe && out.next.None?
  {
    hide Accepts, Fresh;
  }

  /** The text shown follows the reference definition from every reachable state
      on, whatever the attached stream delivers next. */
  lemma EveryStreamIsJoinedDeltas(scope: Scope, events: seq<Event>, delivered: seq<StreamEvent>)
    ensures var c := After(Start(scope), events).ctl;
            c.unsubscribe.Some? && !Terminal(c.view.phase) ==>
              && c.unsubscribe.value < |c.subscriptions|
              && Feed(c, c.unsubscribe.value, delivered).view.output == ReferenceOutput(c, c.unsubscribe.value, delivered)
  {
    hide After, Feed, ReferenceOutput, MarkersMissing;
    var c := After(Start(scope), events).ctl;
    if c.unsubscribe.Some? && !Terminal(c.view.phase) {
      AttachedStreamListens(scope, events, c.unsubscribe.value);
      StreamedOutputIsJoinedDeltas(c, c.unsubscribe.value, delivered);
    }
  }

  // ---------- Streams of runs that go on ----------

  /** A well-formed owner reply about this run, in this session and the scope asked,
      that it is going on. */
  predicate GoesOn(raw: RawRun, scope: Scope, runId: Id, sessionId: Id) {
    && raw.shapeValid && raw.receiptValid && raw.workspaceId == scope.workspaceId
    && IsSafeId(raw.runId) && raw.runId == runId && IsSafeId(raw.sessionId) && raw.sessionId == sessionId
    && (raw.status == StatusResuming || raw.status.OtherStatus?)
  }

  function RunOf(raw: RawRun): Run {
    var clipped := raw.output.Some? && |raw.output.value| > MAX_OUTPUT;
    Run(raw.runId, raw.sessionId, raw.status,
        if raw.output.Some? then Some(Take(raw.output.value, MAX_OUTPUT)) else None, raw.truncated || clipped)
  }

  lemma GoingRunVerifies(raw: RawRun, scope: Scope, runId: Id, sessionId: Id)
    requires GoesOn(raw, scope, runId, sessionId)
    ensures AsRun(RunReply(raw), scope, None) == Success(RunOf(raw))
    ensures Verify(RunReply(raw), scope, runId, None) == Verify(RunReply(raw), scope, runId, Some(sessionId)) == Success(RunOf(raw))
    ensures PhaseOf(raw.status) == Running
  {
  }

  /** A fresh subscription with nothing heard yet and so many resume markers to wait
      for before any text is shown. */
  ghost predicate FreshStream(d: Ctl, missing: nat) {
    && d.view.phase == Running && d.unsubscribe.Some? && d.unsubscribe.value < |d.subscriptions|
    && MarkersMissing(d, d.unsubscribe.value) == missing && d.lastSeq == 0 && d.seen == {}
    && d.subscriptions[d.unsubscribe.value].live && d.view.runId == Some(d.subscriptions[d.unsubscribe.value].runId)
  }

  /** A reply to a control, to its readback or to a reconnect that the run goes on
      attaches a fresh stream with no text. It waits for the markers required so far,
      and for one more exactly if the control was a resume. */
  lemma ResumedStreamWaitsForOneMore(scope: Scope, events: seq<Event>, ticket: nat, raw: RawRun)
    requires var w := After(Start(scope), events);
             && ticket in w.pending && var k := w.pending[ticket];
             && (k.AwaitReconnect? || k.AwaitCancel? || k.AwaitCancelReadback? || k.AwaitCheckpoint? || k.AwaitCheckpointReadback?)
             && IsCurrent(w.ctl, k)
             && (k.AwaitReconnect? ==> w.ctl.view.phase == Submitting && w.ctl.view.sessionId == Some(raw.sessionId))
             && GoesOn(raw, w.ctl.scope, k.runId, if k.AwaitReconnect? then raw.sessionId else k.sessionId)
    ensures var w := After(Start(scope), events);
            var k, v := w.pending[ticket], Step(w, Answer(ticket, RunReply(raw))).ctl;
            && FreshStream(v, w.ctl.markersRequired + if k.AwaitCheckpoint? && k.action == ResumeRun then 1 else 0)
            && v.view.output == []
  {
    hide After, GoesOn, WorldInv, AsRun, Verify, PhaseOf, Settle, FreshStream;
    EveryRunKeepsInv(scope, events);
    var w := After(Start(scope), events);
    var k := w.pending[ticket];
    PendingIsInformed(w, ticket);
    GoingRunVerifies(raw, w.ctl.scope, k.runId, if k.AwaitReconnect? then raw.sessionId else k.sessionId);
    GoingRunSettles(w.ctl, k.lease, RunOf(raw));
    GoingRunSettles(w.ctl.(markersRequired := w.ctl.markersRequired + 1), k.lease, RunOf(raw));
  }

  lemma PendingIsInformed(w: World, ticket: nat)
    requires WorldInv(w) && ticket in w.pending && IsCurrent(w.ctl, w.pending[ticket])
    ensures Valid(w.ctl, w.pending[ticket].lease) && Informed(w.ctl, w.pending[ticket])
  {
    assert PendingOk(w, ticket);
  }

  lemma GoingRunSettles(c: Ctl, lease: Lease, run: Run)
    requires PhaseOf(run.status) == Running && c.view.runId == Some(run.runId)
    ensures forall withSession ::
              && FreshStream(Settle(c, lease, run, withSession), c.markersRequired)
              && Settle(c, lease, run, withSession).view.output == []
  {
    hide BoundedHistory;
  }

  /** The newest check of a run that goes on leaves the stream of a running view
      alone; under any other view that is not terminal it attaches a fresh stream
      that shows nothing until the owner's replay is over, which it cannot tell. */
  lemma CheckedStreamShowsNoReplay(scope: Scope, events: seq<Event>, ticket: nat, raw: RawRun)
    requires var w := After(Start(scope), events);
             && ticket in w.pending && var k := w.pending[ticket];
             && k.AwaitRefresh? && IsCurrent(w.ctl, k) && k.check == w.ctl.refreshEpoch
             && !Terminal(w.ctl.view.phase) && GoesOn(raw, w.ctl.scope, k.runId, k.sessionId)
    ensures var c := After(Start(scope), events).ctl;
            var v := Step(After(Start(scope), events), Answer(ticket, RunReply(raw))).ctl;
            if c.view.phase == Running then
              && v.view.phase == Running && v.unsubscribe == c.unsubscribe && v.subscriptions == c.subscriptions
              && v.view.output == c.view.output && v.awaitingMarker == c.awaitingMarker && v.lastSeq == c.lastSeq
            else
              FreshStream(v, 9_007_199_254_740_991) && v.view.output == []
  {
    hide After, GoesOn, WorldInv, AsRun, Verify, PhaseOf, ApplyRefresh;
    EveryRunKeepsInv(scope, events);
    var w := After(Start(scope), events);
    var k := w.pending[ticket];
    PendingIsInformed(w, ticket);
    GoingRunVerifies(raw, w.ctl.scope, k.runId, k.sessionId);
    GoingRunIsRefreshed(w.ctl, k.lease, RunOf(raw));
  }

  lemma GoingRunIsRefreshed(c: Ctl, lease: Lease, run: Run)
    requires PhaseOf(run.status) == Running && c.view.runId == Some(run.runId) && !Terminal(c.view.phase)
    ensures var v := ApplyRefresh(c, lease, run);
            if c.view.phase == Running then
              && v.view.phase == Running && v.unsubscribe == c.unsubscribe && v.subscriptions == c.subscriptions
              && v.view.output == c.view.output && v.awaitingMarker == c.awaitingMarker && v.lastSeq == c.lastSeq
            else
              FreshStream(v, 9_007_199_254_740_991) && v.view.output == []
  {
    hide Confirm;
    GoingRunConfirmsNothing(c, run);
  }

  lemma GoingRunConfirmsNothing(c: Ctl, run: Run)
    requires PhaseOf(run.status) == Running
    ensures Confirm(c, run) == c
  {
  }

  /** A create or a recovery of a run that goes on shows the owner's text so far, up
      to the limit, and attaches a fresh stream; a recovered run that is resuming
      shows nothing of the replay. */
  lemma OpenedStreamStartsFresh(scope: Scope, events: seq<Event>, ticket: nat, raw: RawRun)
    requires var w := After(Start(scope), events);
             && ticket in w.pending && var k := w.pending[ticket];
             && (k.AwaitCreate? || k.AwaitRecover?) && IsCurrent(w.ctl, k)
             && GoesOn(raw, w.ctl.scope, if k.AwaitRecover? then k.runId else raw.runId, raw.sessionId)
             && (k.AwaitCreate? ==> k.request.sessionId.None? || k.request.sessionId == Some(raw.sessionId))
    ensures var w := After(Start(scope), events);
            var k, v := w.pending[ticket], Step(w, Answer(ticket, RunReply(raw))).ctl;
            && FreshStream(v, if k.AwaitRecover? && raw.status == StatusResuming then 9_007_199_254_740_991 else 0)
            && v.view.runId == Some(raw.runId) && v.view.sessionId == Some(raw.sessionId)
            && v.view.output == Take(raw.output.GetOr([]), 65_536)
            && (k.AwaitRecover? ==> v.view.contextLimited && v.contextLimited)
  {
    hide After, WorldInv, AsRun, Verify, PhaseOf, ResumeCreate, ResumeRecover;
    EveryRunKeepsInv(scope, events);
    EveryRunHasShape(scope, events);
    var w := After(Start(scope), events);
    var k := w.pending[ticket];
    PendingIsInformed(w, ticket);
    if k.AwaitCreate? {
      CreateOpens(w.ctl, k.lease, k.request, raw);
    } else {
      RecoverOpens(w.ctl, k.lease, k.runId, raw);
    }
  }

  lemma CreateOpens(c: Ctl, lease: Lease, request: Request, raw: RawRun)
    requires Valid(c, lease) && GoesOn(raw, lease.scope, raw.runId, raw.sessionId)
    requires request.sessionId.None? || request.sessionId == Some(raw.sessionId)
    ensures var v := ResumeCreate(c, lease, request, RunReply(raw)).ctl;
            && FreshStream(v, c.markersRequired)
            && v.view.runId == Some(raw.runId) && v.view.sessionId == Some(raw.sessionId)
            && v.view.output == Take(raw.output.GetOr([]), 65_536)
  {
    hide AsRun, Verify, PhaseOf;
    GoingRunVerifies(raw, lease.scope, raw.runId, raw.sessionId);
    CompletedIsNotGoing(raw.status);
  }

  lemma RecoverOpens(c: Ctl, lease: Lease, runId: Id, raw: RawRun)
    requires Valid(c, lease) && GoesOn(raw, lease.scope, runId, raw.sessionId)
    ensures var v := ResumeRecover(c, lease, runId, RunReply(raw)).ctl;
            && FreshStream(v, if raw.status == StatusResuming then 9_007_199_254_740_991 else 0)
            && v.view.runId == Some(raw.runId) && v.view.sessionId == Some(raw.sessionId)
            && v.view.output == Take(raw.output.GetOr([]), 65_536)
            && v.view.contextLimited && v.contextLimited
  {
    hide AsRun, Verify, PhaseOf;
    GoingRunVerifies(raw, lease.scope, runId, raw.sessionId);
  }

  lemma CompletedIsNotGoing(status: Status)
    requires PhaseOf(status) == Running
    ensures status != StatusCompleted
  {
  }
}
