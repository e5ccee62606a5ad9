/** The chat run controller as functions on its whole state. An async method is
    cut at its awaits: a Begin function runs up to the request and yields the
    continuation with its captured locals; a Resume function runs from the reply
    to the end, or to the next await. */
module ConversationRun {
  import opened Wrappers
  import opened JsText
  import opened ConfirmedHistory
  import opened ConversationTypes
  import opened SessionHistory

  datatype View = View(scope: Scope, phase: Phase, runId: Option<Id>, sessionId: Option<Id>,
                       output: Text, errorCode: Option<Code>, canonicalStatus: Option<Status>,
                       contextLimited: bool)

  function IdleView(scope: Scope): View {
    View(scope, Idle, None, None, [], None, None, false)
  }

  /** One submission. `serial` numbers the sends, so that retries of one send can
      be told from a later send of the same text. */
  datatype Request = Request(serial: nat, text: Text, key: Id, sessionId: Option<Id>, messages: seq<Turn>)

  datatype Cursor = Cursor(id: nat, sessionId: Id, offset: int, total: nat, seen: set<Id>)

  /** What a continuation captured about the moment it was created. */
  datatype Lease = Lease(epoch: nat, scope: Scope, selection: nat)

  /** A feed subscription with the variables its callbacks close over. */
  datatype Subscription = Subscription(lease: Lease, runId: Id, streamEpoch: nat,
                                       markersSeen: nat, live: bool)

  // ---------- History of one run, kept for the theorems ----------

  /** `confirmedBefore` is the run that counted as confirmed when it was sent. */
  datatype Create = Create(request: Request, phaseBefore: Phase, confirmedBefore: Option<Id>)

  datatype Confirmation = Confirmation(serial: nat, runId: Id, question: Text, answer: Text)

  datatype Log = Log(sends: nat, creates: seq<Create>, answers: map<nat, Id>,
                     confirmations: seq<Confirmation>,
                     session: Id, rows: seq<HistoryRow>, applied: seq<nat>)

  const EmptyLog := Log(0, [], map[], [], "", [], [])

  // ---------- The state ----------

  datatype Ctl = Ctl(
    scope: Scope, selection: nat,
    epoch: nat, streamEpoch: nat, refreshEpoch: nat,
    markersRequired: nat, awaitingMarker: bool,
    older: Option<Cursor>, cursors: nat,
    unsubscribe: Option<nat>, subscriptions: seq<Subscription>,
    seen: set<Id>, lastSeq: nat,
    request: Option<Request>,
    confirmed: seq<Turn>, contextLimited: bool, confirmedRun: Option<Id>,
    view: View, log: Log)

  function Init(scope: Scope): Ctl {
    Ctl(scope, 0, 0, 0, 0, 0, false, None, 0, None, [], {}, 0, None, [], false, None,
        IdleView(scope), EmptyLog)
  }

  function LeaseOf(c: Ctl): Lease {
    Lease(c.epoch, c.scope, c.selection)
  }

  predicate Valid(c: Ctl, lease: Lease) {
    lease.epoch == c.epoch && lease.scope == c.scope && lease.selection == c.selection
  }

  datatype Action = PauseRun | ResumeRun

  datatype Continuation =
    | AwaitCreate(lease: Lease, request: Request)
    | AwaitReconnect(lease: Lease, runId: Id)
    | AwaitCancel(lease: Lease, runId: Id, sessionId: Id)
    | AwaitCancelReadback(lease: Lease, runId: Id, sessionId: Id)
    | AwaitRefresh(lease: Lease, runId: Id, sessionId: Id, check: nat)
    | AwaitCheckpoint(lease: Lease, action: Action, runId: Id, sessionId: Id)
    | AwaitCheckpointReadback(lease: Lease, refusal: Code, runId: Id, sessionId: Id)
    | AwaitReconcile(lease: Lease, runId: Id)
    | AwaitPage(lease: Lease, sessionId: Id, second: bool, offset: int, rows: seq<HistoryRow>)
    | AwaitOlder(lease: Lease, cursor: nat, sessionId: Id, offset: int)
    | AwaitRecover(lease: Lease, runId: Id)

  /** What a history operation hands to the pane. */
  datatype Delivery =
    | Nothing
    | Opened(turns: seq<Turn>, hasOlder: bool, pendingFinal: Option<nat>)
    | Prepended(turns: seq<Turn>, hasOlder: bool, limitedByView: bool)

  datatype Out = Out(ctl: Ctl, next: Option<Continuation>, delivery: Delivery)

  datatype Begun = Begun(ctl: Ctl, next: Continuation)

  function Done(c: Ctl): Out {
    Out(c, None, Nothing)
  }

  // ---------- Shared pieces ----------

  function Dispose(c: Ctl): Ctl {
    if c.unsubscribe.Some? && c.unsubscribe.value < |c.subscriptions| then
      var i := c.unsubscribe.value;
      c.(subscriptions := c.subscriptions[i := c.subscriptions[i].(live := false)], unsubscribe := None)
    else
      c.(unsubscribe := None)
  }

  /** Abandon the stream: its callbacks become stale and it is disposed. */
  function Detach(c: Ctl): Ctl {
    Dispose(c).(streamEpoch := c.streamEpoch + 1)
  }

  function Reset(c: Ctl, scope: Scope): Ctl {
    Detach(c).(
      epoch := c.epoch + 1, seen := {}, lastSeq := 0, request := None,
      markersRequired := 0, awaitingMarker := false, older := None,
      confirmed := [], contextLimited := false, confirmedRun := None,
      view := IdleView(scope))
  }

  function ShowPhase(c: Ctl, phase: Phase): Ctl {
    c.(view := c.view.(phase := phase))
  }

  function Interrupt(c: Ctl, code: Code): Ctl {
    c.(view := c.view.(phase := Interrupted, errorCode := Some(code)))
  }

  /** Show that a control request is under way for the run in view. */
  function ShowPending(c: Ctl): Ctl {
    c.(view := c.view.(phase := Submitting, output := [], errorCode := None))
  }

  function Subscribe(c: Ctl, lease: Lease, runId: Id): Ctl {
    var d := Dispose(c);
    d.(seen := {}, lastSeq := 0, awaitingMarker := c.markersRequired > 0,
       streamEpoch := c.streamEpoch + 1,
       unsubscribe := Some(|d.subscriptions|),
       subscriptions := d.subscriptions + [Subscription(lease, runId, c.streamEpoch + 1, 0, true)])
  }

  /** A completed run with its whole text confirms the active request, once. */
  function Confirm(c: Ctl, run: Run): Ctl {
    if || run.status != StatusCompleted || run.output.None? || run.truncated
       || c.request.None? || c.confirmedRun == Some(run.runId) then
      c
    else
      var request := c.request.value;
      var grown := c.confirmed + PairTurns(Pair(request.text, run.output.value));
      var kept := BoundedHistory(grown);
      c.(confirmedRun := Some(run.runId), confirmed := kept,
         contextLimited := c.contextLimited || |kept| < |grown|,
         log := c.log.(confirmations := c.log.confirmations
                       + [Confirmation(request.serial, run.runId, request.text, run.output.value)]))
  }

  function FinalOutput(run: Run): Text {
    if run.status == StatusCompleted then run.output.GetOr([]) else []
  }

  /** The view of a run that an owner reply has settled. */
  function ShowSettled(c: Ctl, run: Run): Ctl {
    c.(view := c.view.(phase := PhaseOf(run.status), canonicalStatus := Some(run.status),
                       output := FinalOutput(run), errorCode := None, contextLimited := c.contextLimited))
  }

  function ShowSession(c: Ctl, run: Run): Ctl {
    c.(view := c.view.(sessionId := Some(run.sessionId)))
  }

  /** Show an owner reply and reattach the stream of a run that is still going. */
  function ShowAndAttach(c: Ctl, lease: Lease, run: Run, withSession: bool): Ctl {
    var shown := ShowSettled(c, run);
    var bound := if withSession then ShowSession(shown, run) else shown;
    if PhaseOf(run.status) == Running then Subscribe(bound, lease, run.runId) else bound
  }

  function Settle(c: Ctl, lease: Lease, run: Run, withSession: bool): Ctl {
    ShowAndAttach(Confirm(c, run), lease, run, withSession)
  }

  /** Projection, session binding and completion checks of a readback. */
  function Verify(reply: Reply, scope: Scope, runId: Id, sessionId: Option<Id>): (result: Result<Run, Code>)
    requires !reply.Refused?
    ensures result.Success? ==> result.value.runId == runId
  {
    match AsRun(reply, scope, Some(runId))
    case Failure(code) => Failure(code)
    case Success(run) =>
      if sessionId.Some? && run.sessionId != sessionId.value then
        Failure(SessionBindingMismatch)
      else if CompletionIssue(run).Some? then
        Failure(CompletionIssue(run).value)
      else
        Success(run)
  }

  predicate Stale(c: Ctl, lease: Lease, runId: Id) {
    !Valid(c, lease) || c.view.runId != Some(runId)
  }

  // ---------- send, retrySubmission and submit ----------

  /** The session a send continues: the given one, or that of a settled view. */
  function SendSession(c: Ctl, sessionId: Option<Id>): Option<Id> {
    var selected :=
      if sessionId.Some? then sessionId
      else if c.view.phase in {Completed, Canceled} then c.view.sessionId
      else None;
    if selected.GetOr("") == "" then None else selected
  }

  function SendRequest(c: Ctl, text: Text, key: Id, sessionId: Option<Id>): Request {
    Request(c.log.sends, text, key, SendSession(c, sessionId),
            BoundedHistory(c.confirmed) + [Turn(User, text)])
  }

  function SendLimited(c: Ctl, sessionId: Option<Id>): bool {
    || c.contextLimited || c.view.phase == Canceled
    || (sessionId.GetOr("") != "" && BoundedHistory(c.confirmed) == [])
  }

  function ApplySend(c: Ctl, request: Request, limited: bool): Ctl {
    var cleared := Reset(c, c.scope);
    cleared.(
      confirmed := BoundedHistory(c.confirmed), confirmedRun := c.confirmedRun, contextLimited := limited,
      request := Some(request),
      view := cleared.view.(phase := Submitting, contextLimited := limited),
      log := c.log.(sends := c.log.sends + 1,
                    creates := c.log.creates + [Create(request, c.view.phase, c.confirmedRun)]))
  }

  function SendIssue(c: Ctl, text: Text, key: Id, sessionId: Option<Id>): Option<Code> {
    if IsBlank(text) || |text| > 32_768 then
      Some(MessageInvalid)
    else if !IsSafeId(key) || (sessionId.GetOr("") != "" && !IsSafeId(sessionId.value)) then
      Some(RequestIdInvalid)
    else if c.view.phase !in {Idle, Completed, Canceled} then
      Some(PreviousRunUnresolved)
    else
      None
  }

  function BeginSend(c: Ctl, text: Text, key: Id, sessionId: Option<Id>): Result<Begun, Code> {
    var issue := SendIssue(c, text, key, sessionId);
    if issue.Some? then
      Failure(issue.value)
    else
      var request := SendRequest(c, text, key, sessionId);
      var sent := ApplySend(c, request, SendLimited(c, sessionId));
      Success(Begun(sent, AwaitCreate(LeaseOf(sent), request)))
  }

  function ApplyRetry(c: Ctl, request: Request): Ctl {
    c.(view := c.view.(phase := Submitting, errorCode := None),
       log := c.log.(creates := c.log.creates + [Create(request, c.view.phase, c.confirmedRun)]))
  }

  function BeginRetry(c: Ctl): Result<Begun, Code> {
    if c.view.phase != Interrupted || c.request.None? || c.view.runId.Some? then
      Failure(NotRetryable)
    else
      Success(Begun(ApplyRetry(c, c.request.value), AwaitCreate(LeaseOf(c), c.request.value)))
  }

  /** The run that answers a create. A completed one is first read back. */
  function ShowCreated(c: Ctl, request: Request, run: Run): Ctl {
    var completed := run.status == StatusCompleted;
    c.(view := c.view.(runId := Some(run.runId), sessionId := Some(run.sessionId),
                       phase := if completed then Running else PhaseOf(run.status),
                       canonicalStatus := Some(run.status),
                       output := if completed then [] else run.output.GetOr([])),
       log := c.log.(answers := c.log.answers[request.serial := run.runId]))
  }

  function ResumeCreate(c: Ctl, lease: Lease, request: Request, reply: Reply): Out {
    if !Valid(c, lease) then
      Done(c)
    else if reply.Refused? then
      Done(Interrupt(c, reply.code.GetOr(SubmissionUncertain)))
    else
      match AsRun(reply, lease.scope, None)
      case Failure(code) => Done(Interrupt(c, code))
      case Success(run) =>
        if request.sessionId.Some? && run.sessionId != request.sessionId.value then
          Done(Interrupt(c, SessionBindingMismatch))
        else
          var shown := ShowCreated(c, request, run);
          if run.status == StatusCompleted then BeginReconcile(shown, lease, run.runId)
          else if !Terminal(shown.view.phase) then Done(Subscribe(shown, lease, run.runId))
          else Done(shown)
  }

  // ---------- reconnect ----------

  function BeginReconnect(c: Ctl): Result<Begun, Code> {
    if c.view.phase != Interrupted || c.view.runId.None? || !IsSafeId(c.view.runId.value) then
      Failure(ReconnectUnavailable)
    else
      Success(Begun(ShowPending(Detach(c)), AwaitReconnect(LeaseOf(c), c.view.runId.value)))
  }

  function ResumeReconnect(c: Ctl, lease: Lease, runId: Id, reply: Reply): Out {
    if Stale(c, lease, runId) || Terminal(c.view.phase) then
      Done(c)
    else if reply.Refused? then
      Done(Interrupt(c, reply.code.GetOr(ReconnectFailed)))
    else
      match Verify(reply, lease.scope, runId, c.view.sessionId)
      case Failure(code) => Done(Interrupt(c, code))
      case Success(run) => Done(Settle(c, lease, run, true))
  }

  // ---------- stop ----------

  function BeginStop(c: Ctl, operationId: Id): Result<Begun, Code> {
    if !IsSafeId(operationId) then
      Failure(ControlIdInvalid)
    else if || c.view.phase !in {Running, Paused, RecoveryRequired}
            || c.view.runId.None? || c.view.sessionId.None? then
      Failure(StopUnavailable)
    else
      var d := ShowPending(Detach(c)).(epoch := c.epoch + 1);
      Success(Begun(d, AwaitCancel(LeaseOf(d), c.view.runId.value, c.view.sessionId.value)))
  }

  function FailControl(c: Ctl, lease: Lease, runId: Id, code: Code): Out {
    if Stale(c, lease, runId) then Done(c) else Done(Interrupt(c, code))
  }

  function ResumeCancel(c: Ctl, lease: Lease, runId: Id, sessionId: Id, reply: Reply): Out {
    if reply.Refused? then
      if reply.code == Some(RunNotCancelable) then
        Out(c, Some(AwaitCancelReadback(lease, runId, sessionId)), Nothing)
      else
        FailControl(c, lease, runId, reply.code.GetOr(StopUncertain))
    else if Stale(c, lease, runId) then
      Done(c)
    else
      match Verify(reply, lease.scope, runId, Some(sessionId))
      case Failure(code) => Done(Interrupt(c, code))
      case Success(run) => Done(Settle(c, lease, run, true))
  }

  /** Only a contract failure of the readback replaces the refusal that led to it. */
  function ReadbackCode(issue: Code, refusal: Code): Code {
    if IsReadbackIssue(issue) then issue else refusal
  }

  /** The GET that follows a refused control. */
  function ResumeReadback(c: Ctl, lease: Lease, refusal: Code, runId: Id, sessionId: Id, reply: Reply): Out {
    if Stale(c, lease, runId) then
      Done(c)
    else if reply.Refused? then
      Done(Interrupt(c, ReadbackCode(reply.code.GetOr(refusal), refusal)))
    else
      match Verify(reply, lease.scope, runId, Some(sessionId))
      case Failure(code) => Done(Interrupt(c, ReadbackCode(code, refusal)))
      case Success(run) => Done(Settle(c, lease, run, false))
  }

  // ---------- refreshStatus ----------

  function BeginRefresh(c: Ctl): Result<Begun, Code> {
    if c.view.runId.None? || c.view.sessionId.None? || !IsSafeId(c.view.runId.value) then
      Failure(RefreshUnavailable)
    else
      var d := c.(refreshEpoch := c.refreshEpoch + 1);
      Success(Begun(d, AwaitRefresh(LeaseOf(c), c.view.runId.value, c.view.sessionId.value, d.refreshEpoch)))
  }

  function FailRefresh(c: Ctl, code: Code): Ctl {
    if IsReadbackIssue(code) then
      Detach(c).(view := c.view.(phase := Interrupted, output := [], errorCode := Some(code)))
    else
      c.(view := c.view.(errorCode := Some(code)))
  }

  const UNKNOWN_MARKERS: nat := 9_007_199_254_740_991

  function ApplyRefresh(c: Ctl, lease: Lease, run: Run): Ctl {
    if Terminal(c.view.phase) && !Terminal(PhaseOf(run.status)) then
      c
    else
      var d := Confirm(c, run);
      if PhaseOf(run.status) == Running && c.view.phase == Running then
        d.(view := d.view.(canonicalStatus := Some(run.status), errorCode := None))
      else
        var e := Detach(d);
        var f := if PhaseOf(run.status) == Running then e.(markersRequired := UNKNOWN_MARKERS) else e;
        ShowAndAttach(f, lease, run, true)
  }

  function ResumeRefresh(c: Ctl, lease: Lease, runId: Id, sessionId: Id, check: nat, reply: Reply): Out {
    if Stale(c, lease, runId) || check != c.refreshEpoch then
      Done(c)
    else if reply.Refused? then
      Done(FailRefresh(c, reply.code.GetOr(RefreshFailed)))
    else
      match Verify(reply, lease.scope, runId, Some(sessionId))
      case Failure(code) => Done(FailRefresh(c, code))
      case Success(run) => Done(ApplyRefresh(c, lease, run))
  }

  // ---------- checkpoint ----------

  function BeginCheckpoint(c: Ctl, action: Action, operationId: Id): Result<Begun, Code> {
    if !IsSafeId(operationId) then
      Failure(ControlIdInvalid)
    else if || !(if action == PauseRun then c.view.phase == Running
                 else c.view.phase in {Paused, RecoveryRequired})
            || c.view.runId.None? || c.view.sessionId.None? then
      Failure(if action == PauseRun then PauseUnavailable else ResumeUnavailable)
    else
      var d := ShowPending(Detach(c)).(epoch := c.epoch + 1);
      Success(Begun(d, AwaitCheckpoint(LeaseOf(d), action, c.view.runId.value, c.view.sessionId.value)))
  }

  function ResumeCheckpoint(c: Ctl, lease: Lease, action: Action, runId: Id, sessionId: Id, reply: Reply): Out {
    if reply.Refused? then
      if reply.code in {Some(RunNotPausable), Some(RunNotResumable)} then
        Out(c, Some(AwaitCheckpointReadback(lease, reply.code.value, runId, sessionId)), Nothing)
      else
        FailControl(c, lease, runId, reply.code.GetOr(ControlUncertain))
    else if Stale(c, lease, runId) then
      Done(c)
    else
      match Verify(reply, lease.scope, runId, Some(sessionId))
      case Failure(code) => Done(Interrupt(c, code))
      case Success(run) =>
        var raised := action == ResumeRun && PhaseOf(run.status) == Running;
        var d := if raised then c.(markersRequired := c.markersRequired + 1) else c;
        Done(Settle(d, lease, run, true))
  }

  // ---------- Stream callbacks and reconcile ----------

  predicate Accepts(c: Ctl, sub: Subscription) {
    && sub.streamEpoch == c.streamEpoch && Valid(c, sub.lease)
    && c.view.runId == Some(sub.runId) && !Terminal(c.view.phase)
  }

  predicate Fresh(c: Ctl, sub: Subscription, event: StreamEvent) {
    && event.scope == sub.lease.scope && event.runId == sub.runId
    && event.seqNo > c.lastSeq && event.eventId !in c.seen
  }

  const SEEN_WINDOW: nat := 512

  /** Bookkeeping of an accepted event: order, resume markers, id window. */
  function Register(c: Ctl, i: nat, event: StreamEvent): Ctl
    requires i < |c.subscriptions|
  {
    var sub := c.subscriptions[i];
    var markers := if event.kind == RunResumed then sub.markersSeen + 1 else sub.markersSeen;
    c.(lastSeq := event.seqNo,
       subscriptions := c.subscriptions[i := sub.(markersSeen := markers)],
       awaitingMarker := c.awaitingMarker && !(event.kind == RunResumed && markers >= c.markersRequired),
       seen := (if |c.seen| >= SEEN_WINDOW then {} else c.seen) + {event.eventId})
  }

  function AppendDelta(c: Ctl, event: StreamEvent): Ctl {
    if event.kind == AssistantDelta && event.text.Some? && !c.awaitingMarker then
      c.(view := c.view.(output := Take(c.view.output + event.text.value, MAX_OUTPUT)))
    else
      c
  }

  function OnEvent(c: Ctl, i: nat, event: StreamEvent): Out
    requires i < |c.subscriptions|
  {
    var sub := c.subscriptions[i];
    if !Accepts(c, sub) || !Fresh(c, sub, event) then
      Done(c)
    else
      var d := AppendDelta(Register(c, i, event), event);
      if event.kind == TerminalNotice then BeginReconcile(d, sub.lease, sub.runId) else Done(d)
  }

  function OnInterrupted(c: Ctl, i: nat, code: Code): Out
    requires i < |c.subscriptions|
  {
    if Accepts(c, c.subscriptions[i]) then Done(Interrupt(Detach(c), code)) else Done(c)
  }

  function BeginReconcile(c: Ctl, lease: Lease, runId: Id): Out {
    Out(Detach(c), Some(AwaitReconcile(lease, runId)), Nothing)
  }

  function FailReconcile(c: Ctl, code: Code): Ctl {
    c.(view := c.view.(phase := Interrupted, output := [], errorCode := Some(code)))
  }

  function ApplyReconcile(c: Ctl, run: Run): Ctl {
    var issue := CompletionIssue(run);
    if !Terminal(PhaseOf(run.status)) || issue.Some? then
      c.(view := c.view.(phase := Interrupted, canonicalStatus := Some(run.status), output := [],
                         errorCode := Some(issue.GetOr(TerminalUnconfirmed))))
    else
      ShowSession(ShowSettled(Confirm(c, run), run), run)
  }

  function ResumeReconcile(c: Ctl, lease: Lease, runId: Id, reply: Reply): Out {
    if Stale(c, lease, runId) || Terminal(c.view.phase) then
      Done(c)
    else if reply.Refused? then
      Done(FailReconcile(c, reply.code.GetOr(ReconcileFailed)))
    else
      match AsRun(reply, lease.scope, Some(runId))
      case Failure(code) => Done(FailReconcile(c, code))
      case Success(run) =>
        if c.view.sessionId.Some? && run.sessionId != c.view.sessionId.value then
          Done(FailReconcile(c, SessionBindingMismatch))
        else
          Done(ApplyReconcile(c, run))
  }

  // ---------- openSession and loadOlderSessionRuns ----------

  function BeginOpen(c: Ctl, sessionId: Id): Result<Begun, Code> {
    if !IsSafeId(sessionId) then
      Failure(SessionIdInvalid)
    else
      var d := ShowPhase(Reset(c, c.scope), Submitting);
      Success(Begun(d, AwaitPage(LeaseOf(d), sessionId, false, 0, [])))
  }

  function ResumePage(c: Ctl, lease: Lease, sessionId: Id, second: bool, offset: int,
                      rows: seq<HistoryRow>, reply: Reply): Out {
    if !Valid(c, lease) then
      Done(c)
    else if reply.Refused? then
      Done(Interrupt(c, reply.code.GetOr(HistoryUnavailable)))
    else if !reply.PageReply? then
      Done(Interrupt(c, HistoryInvalid))
    else
      var page := reply.page;
      if !PageAdmissible(page, lease.scope.workspaceId, sessionId, offset) || !RowsAdmissible(page.rows, sessionId) then
        Done(Interrupt(c, HistoryInvalid))
      else if page.hasMore && !second then
        Out(c, Some(AwaitPage(lease, sessionId, true, page.nextOffset.value, rows + page.rows)), Nothing)
      else if !DistinctRuns(rows + page.rows) then
        Done(Interrupt(c, HistoryDuplicateRun))
      else
        FinishOpen(c, sessionId, rows + page.rows, if page.hasMore then page.nextOffset else None)
  }

  /** The newest row, when the conversation can continue from it. */
  predicate CanContinue(rows: seq<HistoryRow>) {
    rows != [] && Confirmable(rows[0])
  }

  predicate FinalUnverified(rows: seq<HistoryRow>) {
    rows != [] && rows[0].status == StatusCompleted && !CanContinue(rows)
  }

  function OpenedView(scope: Scope, sessionId: Id, rows: seq<HistoryRow>, limited: bool): View {
    View(scope,
         if rows == [] then Idle else if CanContinue(rows) then Completed else RecoveryRequired,
         if rows == [] then None else Some(rows[0].runId),
         Some(sessionId),
         if CanContinue(rows) then rows[0].output.value else [],
         if FinalUnverified(rows) then Some(HistoryFinalUnverified) else None,
         if rows == [] then None else Some(rows[0].status),
         limited)
  }

  /** `more` is the offset of the next page, if the owner has one. */
  function FinishOpen(c: Ctl, sessionId: Id, rows: seq<HistoryRow>, more: Option<int>): Out {
    var completed := Flatten(VerifiedPairs(rows));
    var limited := more.Some? || |completed| > MAX_CONFIRMED_TURNS
                   || exists i :: 0 <= i < |rows| && LimitsContext(rows[i]);
    var turns := Render(rows);
    var pendingFinal :=
      if FinalUnverified(rows) && HasAnswer(rows[0]) then Some(|turns| - 1) else None;
    var d := c.(
      confirmed := TakeLast(completed, MAX_CONFIRMED_TURNS),
      older := if more.Some? then Some(Cursor(c.cursors, sessionId, more.value, |rows|, RunIds(rows))) else None,
      cursors := c.cursors + 1,
      contextLimited := limited,
      confirmedRun := if CanContinue(rows) then Some(rows[0].runId) else None,
      view := OpenedView(c.view.scope, sessionId, rows, limited),
      log := c.log.(session := sessionId, rows := rows));
    Out(d, None, Opened(turns, more.Some?, pendingFinal))
  }

  function BeginOlder(c: Ctl): Result<Begun, Code> {
    if c.older.None? || c.view.sessionId != Some(c.older.value.sessionId) then
      Failure(OlderHistoryUnavailable)
    else
      var cursor := c.older.value;
      Success(Begun(c, AwaitOlder(LeaseOf(c), cursor.id, cursor.sessionId, cursor.offset)))
  }

  predicate OlderAdmissible(page: HistoryPage, workspaceId: string, cursor: Cursor) {
    && PageAdmissible(page, workspaceId, cursor.sessionId, cursor.offset)
    && RowsAdmissible(page.rows, cursor.sessionId)
    && DistinctRuns(page.rows)
    && RunIds(page.rows) !! cursor.seen
  }

  /** A rejected page throws to the caller and changes nothing. */
  function ResumeOlder(c: Ctl, lease: Lease, cursorId: nat, reply: Reply): Out {
    if !Valid(c, lease) || c.older.None? || c.older.value.id != cursorId then
      Done(c)
    else
      var cursor := c.older.value;
      if !reply.PageReply? || !OlderAdmissible(reply.page, lease.scope.workspaceId, cursor) then
        Done(c)
      else
        ApplyOlder(c, cursor, reply.page)
  }

  function ApplyOlder(c: Ctl, cursor: Cursor, page: HistoryPage): Out
    requires page.hasMore ==> page.nextOffset.Some?
  {
    var total := cursor.total + |page.rows|;
    var hasOlder := page.hasMore && total < MAX_VIEWED_RUNS;
    var d := c.(
      older := if hasOlder then
                 Some(Cursor(c.cursors, cursor.sessionId, page.nextOffset.value, total,
                             cursor.seen + RunIds(page.rows)))
               else None,
      cursors := c.cursors + 1,
      log := c.log.(rows := c.log.rows + page.rows, applied := c.log.applied + [cursor.id]));
    Out(d, None, Prepended(Render(page.rows), hasOlder, page.hasMore && !hasOlder))
  }

  // ---------- recover ----------

  function BeginRecover(c: Ctl, runId: Id): Result<Begun, Code> {
    if !IsSafeId(runId) then
      Failure(RunIdInvalid)
    else
      var d := ShowPhase(Reset(c, c.scope), Submitting);
      Success(Begun(d, AwaitRecover(LeaseOf(d), runId)))
  }

  function ShowRecovered(c: Ctl, run: Run): Ctl {
    c.(contextLimited := true,
       markersRequired := if run.status == StatusResuming then UNKNOWN_MARKERS else 0,
       view := c.view.(runId := Some(run.runId), sessionId := Some(run.sessionId),
                       phase := PhaseOf(run.status), canonicalStatus := Some(run.status),
                       output := run.output.GetOr([]), contextLimited := true))
  }

  function ApplyRecover(c: Ctl, lease: Lease, run: Run): Ctl {
    var d := ShowRecovered(c, run);
    if Terminal(d.view.phase) || d.view.phase in {RecoveryRequired, Paused} then d
    else Subscribe(d, lease, run.runId)
  }

  function ResumeRecover(c: Ctl, lease: Lease, runId: Id, reply: Reply): Out {
    if !Valid(c, lease) then
      Done(c)
    else if reply.Refused? then
      Done(Interrupt(c, reply.code.GetOr(RecoveryFailed)))
    else
      match Verify(reply, lease.scope, runId, None)
      case Failure(code) => Done(Interrupt(c, code))
      case Success(run) => Done(ApplyRecover(c, lease, run))
  }

  // ---------- retarget and close ----------

  function Retarget(c: Ctl, scope: ClientScope): Result<Ctl, Code> {
    match RequiredScope(scope)
    case None => Failure(ScopeRequired)
    case Some(selected) =>
      Success(Reset(c.(scope := selected, selection := c.selection + 1), selected))
  }

  /** Close leaves the stream epoch alone; the new epoch is what makes the old
      stream stale. */
  function Close(c: Ctl): Ctl {
    Dispose(c).(
      epoch := c.epoch + 1, seen := {}, request := None,
      markersRequired := 0, awaitingMarker := false, older := None,
      confirmed := [], contextLimited := false, confirmedRun := None,
      view := IdleView(c.view.scope))
  }

  // ---------- Any reply to any continuation ----------

  function Resume(c: Ctl, k: Continuation, reply: Reply): Out {
    match k
    case AwaitCreate(lease, request) => ResumeCreate(c, lease, request, reply)
    case AwaitReconnect(lease, runId) => ResumeReconnect(c, lease, runId, reply)
    case AwaitCancel(lease, runId, sessionId) => ResumeCancel(c, lease, runId, sessionId, reply)
    case AwaitCancelReadback(lease, runId, sessionId) =>
      ResumeReadback(c, lease, RunNotCancelable, runId, sessionId, reply)
    case AwaitRefresh(lease, runId, sessionId, check) => ResumeRefresh(c, lease, runId, sessionId, check, reply)
    case AwaitCheckpoint(lease, action, runId, sessionId) =>
      ResumeCheckpoint(c, lease, action, runId, sessionId, reply)
    case AwaitCheckpointReadback(lease, refusal, runId, sessionId) =>
      ResumeReadback(c, lease, refusal, runId, sessionId, reply)
    case AwaitReconcile(lease, runId) => ResumeReconcile(c, lease, runId, reply)
    case AwaitPage(lease, sessionId, second, offset, rows) =>
      ResumePage(c, lease, sessionId, second, offset, rows, reply)
    case AwaitOlder(lease, cursor, _, _) => ResumeOlder(c, lease, cursor, reply)
    case AwaitRecover(lease, runId) => ResumeRecover(c, lease, runId, reply)
  }

  // ---------- Any user action that sends a request ----------

  datatype Command =
    | Send(text: Text, key: Id, continueIn: Option<Id>)
    | Retry
    | Reconnect
    | Stop(operationId: Id)
    | RefreshStatus
    | Checkpoint(action: Action, operationId: Id)
    | OpenSession(sessionId: Id)
    | LoadOlder
    | Recover(runId: Id)

  function Begin(c: Ctl, command: Command): Result<Begun, Code> {
    match command
    case Send(text, key, continueIn) => BeginSend(c, text, key, continueIn)
    case Retry => BeginRetry(c)
    case Reconnect => BeginReconnect(c)
    case Stop(operationId) => BeginStop(c, operationId)
    case RefreshStatus => BeginRefresh(c)
    case Checkpoint(action, operationId) => BeginCheckpoint(c, action, operationId)
    case OpenSession(sessionId) => BeginOpen(c, sessionId)
    case LoadOlder => BeginOlder(c)
    case Recover(runId) => BeginRecover(c, runId)
  }
}
