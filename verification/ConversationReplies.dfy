/** What the view shows after each reply, in every reachable state, said of the raw
    reply: which refusals and defects show as which code, and what an admitted run
    shows. */
module ConversationReplies {
  import opened Wrappers
  import opened JsText
  import opened ConfirmedHistory
  import opened ConversationTypes
  import opened SessionHistory
  import opened ConversationRun
  import opened ConversationInvariants
  import opened ConversationWorld
  import opened ConversationTheorems
  import opened ConversationSessions
  import opened ConversationViews
  import ConversationConfirmations

  // ---------- What is wrong with a reply ----------

  /** The reply is well formed and about the asked workspace and run. */
  predicate IsAbout(reply: Reply, workspaceId: string, runId: Option<Id>) {
    && reply.RunReply? && reply.raw.shapeValid && IsSafeId(reply.raw.runId) && IsSafeId(reply.raw.sessionId)
    && reply.raw.workspaceId == workspaceId && (runId.Some? ==> reply.raw.runId == runId.value)
  }

  /** The first defect of a reply, up to its session. */
  function Defect(reply: Reply, workspaceId: string, runId: Option<Id>, sessionId: Option<Id>): Option<Code> {
    if !IsAbout(reply, workspaceId, runId) then Some(InvalidRunProjection)
    else if !reply.raw.receiptValid then Some(InvalidRunReceipt)
    else if sessionId.Some? && reply.raw.sessionId != sessionId.value then Some(SessionBindingMismatch)
    else None
  }

  /** A completed run must come with its whole text. */
  function TextDefect(raw: RawRun): Option<Code> {
    if raw.status == StatusCompleted && (raw.truncated || (raw.output.Some? && |raw.output.value| > 65_536)) then
      Some(OutputTruncated)
    else if raw.status == StatusCompleted && raw.output.None? then
      Some(OutputMissing)
    else
      None
  }

  function Either(first: Option<Code>, second: Option<Code>): Option<Code> {
    if first.Some? then first else second
  }

  predicate Ended(status: Status) {
    status in {StatusCompleted, StatusFailed, StatusCanceled, StatusBlocked, StatusBudgetLimited, StatusParked}
  }

  lemma EndedIsTerminal(status: Status)
    ensures Ended(status) <==> Terminal(PhaseOf(status))
  {
  }

  lemma DefectsExactly(reply: Reply, scope: Scope, runId: Option<Id>)
    requires !reply.Refused?
    ensures var result, defect := AsRun(reply, scope, runId), Defect(reply, scope.workspaceId, runId, None);
            && (defect.Some? ==> result == Failure(defect.value))
            && (defect.None? ==>
                  result.Success? && var run := result.value;
                  && run.runId == reply.raw.runId && run.sessionId == reply.raw.sessionId
                  && run.status == reply.raw.status && CompletionIssue(run) == TextDefect(reply.raw)
                  && run.output == (if reply.raw.output.Some? then Some(Take(reply.raw.output.value, 65_536)) else None)
                  && (TextDefect(reply.raw).None? && run.status == StatusCompleted ==> run.output == reply.raw.output))
  {
  }

  lemma ReadbackDefectsExactly(reply: Reply, scope: Scope, runId: Id, sessionId: Option<Id>)
    requires !reply.Refused?
    ensures var result, defect := Verify(reply, scope, runId, sessionId), Defect(reply, scope.workspaceId, Some(runId), sessionId);
            && (defect.Some? ==> result == Failure(defect.value))
            && (defect.None? ==>
                  if TextDefect(reply.raw).Some? then result == Failure(TextDefect(reply.raw).value)
                  else result == AsRun(reply, scope, Some(runId)) && result.Success?)
  {
    hide AsRun, CompletionIssue, TextDefect, IsAbout;
    DefectsExactly(reply, scope, Some(runId));
  }

  // ---------- Refusals ----------

  /** The state with the view interrupted by a code and the rest as it was. */
  function Broken(c: Ctl, code: Code): Ctl {
    c.(view := c.view.(phase := Interrupted, errorCode := Some(code)))
  }

  predicate IsFinal(phase: Phase) {
    phase == Completed || phase == Failed || phase == Canceled || phase == Blocked
  }

  predicate IsReadback(k: Continuation) {
    k.AwaitCancelReadback? || k.AwaitCheckpointReadback?
  }

  /** What a refusal without a code counts as. */
  function DefaultCode(k: Continuation): Code {
    match k
    case AwaitCreate(_, _) => SubmissionUncertain
    case AwaitReconnect(_, _) => ReconnectFailed
    case AwaitCancel(_, _, _) => StopUncertain
    case AwaitCancelReadback(_, _, _) => RunNotCancelable
    case AwaitRefresh(_, _, _, _) => RefreshFailed
    case AwaitCheckpoint(_, _, _, _) => ControlUncertain
    case AwaitCheckpointReadback(_, refusal, _, _) => refusal
    case AwaitReconcile(_, _) => ReconcileFailed
    case AwaitPage(_, _, _, _, _) => HistoryUnavailable
    case AwaitOlder(_, _, _, _) => HistoryUnavailable
    case AwaitRecover(_, _) => RecoveryFailed
  }

  /** A refused control that the owner says does not apply is read back instead. */
  predicate IsReadBack(k: Continuation, code: Option<Code>) {
    || (k.AwaitCancel? && code == Some(RunNotCancelable))
    || (k.AwaitCheckpoint? && (code == Some(RunNotPausable) || code == Some(RunNotResumable)))
  }

  /** In every reachable state a refusal of a present request shows as an interruption
      with its code, or else the one that stands for that request; except that a
      control that does not apply is read back, a readback keeps the code of its
      control, a failing check leaves the phase, and a terminal view stays. */
  lemma RefusalsAreShown(scope: Scope, events: seq<Event>, ticket: nat, code: Option<Code>)
    requires var w := After(Start(scope), events); ticket in w.pending && IsCurrent(w.ctl, w.pending[ticket])
    ensures var w := After(Start(scope), events);
            var c, k, v := w.ctl, w.pending[ticket], Step(w, Answer(ticket, Refused(code)));
            var shown := code.GetOr(DefaultCode(k));
            if k.AwaitOlder? || ((k.AwaitReconnect? || k.AwaitReconcile?) && IsFinal(c.view.phase))
               || (k.AwaitRefresh? && k.check != c.refreshEpoch) then
              v.ctl == c && v.pending == w.pending - {ticket}
            else if IsReadBack(k, code) then
              && v.ctl == c
              && v.pending == (w.pending - {ticket})[w.tickets :=
                   if k.AwaitCancel? then AwaitCancelReadback(k.lease, k.runId, k.sessionId)
                   else AwaitCheckpointReadback(k.lease, shown, k.runId, k.sessionId)]
            else if k.AwaitRefresh? then
              v.ctl.view == if IsContract(shown) then Broken(c, shown).view.(output := []) else c.view.(errorCode := Some(shown))
            else if k.AwaitReconcile? then
              v.ctl == Broken(c, shown).(view := Broken(c, shown).view.(output := []))
            else
              v.ctl == Broken(c, if IsReadback(k) && !IsContract(shown) then DefaultCode(k) else shown)
  {
    hide After, WorldInv, Resume, IsContract, DefaultCode;
    EveryRunKeepsInv(scope, events);
    var w := After(Start(scope), events);
    PresentIsValid(w, ticket);
    RefusalShows(w.ctl, w.pending[ticket], code);
  }

  lemma RefusalShows(c: Ctl, k: Continuation, code: Option<Code>)
    requires Valid(c, k.lease) && k.lease.scope == c.scope && Informed(c, k)
    ensures var out := Resume(c, k, Refused(code));
            var shown := code.GetOr(DefaultCode(k));
            && out.delivery == Nothing
            && if k.AwaitOlder? || ((k.AwaitReconnect? || k.AwaitReconcile?) && IsFinal(c.view.phase))
                  || (k.AwaitRefresh? && k.check != c.refreshEpoch) then
                 out == Done(c)
               else if IsReadBack(k, code) then
                 && out.ctl == c
                 && out.next == Some(if k.AwaitCancel? then AwaitCancelReadback(k.lease, k.runId, k.sessionId)
                                     else AwaitCheckpointReadback(k.lease, shown, k.runId, k.sessionId))
               else if k.AwaitRefresh? then
                 && out.next.None?
                 && out.ctl.view == if IsContract(shown) then Broken(c, shown).view.(output := []) else c.view.(errorCode := Some(shown))
               else if k.AwaitReconcile? then
                 out == Done(Broken(c, shown).(view := Broken(c, shown).view.(output := [])))
               else
                 out == Done(Broken(c, if IsReadback(k) && !IsContract(shown) then DefaultCode(k) else shown))
  {
    FinalIsTerminal(c.view.phase);
  }

  predicate IsContract(code: Code) {
    code == OutputMissing || code == OutputTruncated || code == SessionBindingMismatch
  }

  lemma PresentIsValid(w: World, ticket: nat)
    requires WorldInv(w) && ticket in w.pending && IsCurrent(w.ctl, w.pending[ticket])
    ensures var k := w.pending[ticket];
            Valid(w.ctl, k.lease) && k.lease.scope == w.ctl.scope && Informed(w.ctl, k)
  {
    assert PendingOk(w, ticket);
  }

  lemma FinalIsTerminal(phase: Phase)
    ensures IsFinal(phase) <==> Terminal(phase)
  {
  }

  // ---------- Replies to controls ----------

  /** An admitted run as the view shows it: its phase, its session, its status and,
      once completed, its text. */
  ghost predicate ShowsRun(before: View, raw: RawRun, view: View) {
    && ShownAs(raw.status, view.phase) && view.canonicalStatus == Some(raw.status)
    && view.runId == before.runId && view.sessionId == Some(raw.sessionId) && view.scope == before.scope
    && view.errorCode.None?
    && view.output == if raw.status == StatusCompleted then raw.output.GetOr([]) else []
  }

  predicate IsControl(k: Continuation) {
    k.AwaitReconnect? || k.AwaitCancel? || k.AwaitCheckpoint? || IsReadback(k)
  }

  function SessionAsked(c: Ctl, k: Continuation): Option<Id>
    requires IsControl(k)
  {
    if k.AwaitReconnect? then c.view.sessionId else Some(k.sessionId)
  }

  /** In every reachable state the reply to a present control, readback or reconnect
      shows the run it admits, or interrupts the view for its first defect; a readback
      keeps the code of its control unless the owner breaks its contract. */
  lemma ControlsAreShown(scope: Scope, events: seq<Event>, ticket: nat, reply: Reply)
    requires var w := After(Start(scope), events); ticket in w.pending && IsCurrent(w.ctl, w.pending[ticket])
    requires IsControl(After(Start(scope), events).pending[ticket]) && !reply.Refused?
    requires After(Start(scope), events).pending[ticket].AwaitReconnect? ==> !IsFinal(After(Start(scope), events).ctl.view.phase)
    ensures var w := After(Start(scope), events);
            var c, k, d := w.ctl, w.pending[ticket], Step(w, Answer(ticket, reply)).ctl;
            var defect := Defect(reply, c.scope.workspaceId, Some(k.runId), SessionAsked(c, k));
            if defect.None? && TextDefect(reply.raw).None? then
              ShowsRun(c.view, reply.raw, d.view) && d.view.contextLimited == d.contextLimited
            else
              var code := if defect.Some? then defect.value else TextDefect(reply.raw).value;
              d == Broken(c, if IsReadback(k) && !IsContract(code) then DefaultCode(k) else code)
  {
    hide After, WorldInv, SessionInv, Defect, TextDefect, ShowsRun, Resume;
    EveryRunKeepsInv(scope, events);
    EveryRunKeepsSessions(scope, events);
    var w := After(Start(scope), events);
    TicketAsksInSession(w, ticket);
    PresentIsValid(w, ticket);
    ControlShows(w.ctl, w.pending[ticket], reply);
  }

  lemma ControlShows(c: Ctl, k: Continuation, reply: Reply)
    requires IsControl(k) && !reply.Refused? && (k.AwaitReconnect? ==> !IsFinal(c.view.phase))
    requires Valid(c, k.lease) && k.lease.scope == c.scope && c.view.runId == Some(k.runId) && AsksInSession(c, k)
    ensures var d := Resume(c, k, reply).ctl;
            var defect := Defect(reply, c.scope.workspaceId, Some(k.runId), SessionAsked(c, k));
            && (defect.None? ==> reply.RunReply?)
            && if defect.None? && TextDefect(reply.raw).None? then
                 ShowsRun(c.view, reply.raw, d.view) && d.view.contextLimited == d.contextLimited
               else
                 var code := if defect.Some? then defect.value else TextDefect(reply.raw).value;
                 d == Broken(c, if IsReadback(k) && !IsContract(code) then DefaultCode(k) else code)
  {
    hide Verify, AsRun, Settle, Defect, TextDefect, ShowsRun, CompletionIssue, PhaseOf;
    FinalIsTerminal(c.view.phase);
    ReadbackDefectsExactly(reply, c.scope, k.runId, SessionAsked(c, k));
    var defect := Defect(reply, c.scope.workspaceId, Some(k.runId), SessionAsked(c, k));
    if defect.None? {
      DefectIsOfSession(reply, c.scope.workspaceId, Some(k.runId), SessionAsked(c, k));
      DefectsExactly(reply, c.scope, Some(k.runId));
      if TextDefect(reply.raw).None? {
        var run := AsRun(reply, c.scope, Some(k.runId)).value;
        SettleShows(c, k.lease, run, reply.raw);
        SettleShows(c.(markersRequired := c.markersRequired + 1), k.lease, run, reply.raw);
      }
    }
  }

  lemma EveryRunKeepsSessions(scope: Scope, events: seq<Event>)
    ensures SessionInv(After(Start(scope), events))
  {
    hide After, WorldInv;
    StartInv(scope);
    RunKeepsSessions(Start(scope), events);
  }

  lemma TicketAsksInSession(w: World, ticket: nat)
    requires SessionInv(w) && ticket in w.pending
    ensures AsksInSession(w.ctl, w.pending[ticket])
  {
  }

  lemma DefectIsOfSession(reply: Reply, workspaceId: string, runId: Option<Id>, sessionId: Option<Id>)
    requires Defect(reply, workspaceId, runId, sessionId).None?
    ensures reply.RunReply? && Defect(reply, workspaceId, runId, None).None?
    ensures sessionId.Some? ==> reply.raw.sessionId == sessionId.value
  {
  }

  lemma DefectBySession(reply: Reply, workspaceId: string, runId: Option<Id>, sessionId: Option<Id>)
    ensures var without := Defect(reply, workspaceId, runId, None);
            && (without.None? ==> reply.RunReply?)
            && Defect(reply, workspaceId, runId, sessionId)
               == if without.None? && sessionId.Some? && reply.raw.sessionId != sessionId.value then Some(SessionBindingMismatch)
                  else without
  {
  }

  /** The run that an admitted reply is read as. */
  ghost predicate ReadAs(raw: RawRun, run: Run) {
    && run.runId == raw.runId && run.sessionId == raw.sessionId && run.status == raw.status
    && (run.status == StatusCompleted ==> run.output == raw.output)
  }

  lemma AttachShows(c: Ctl, lease: Lease, run: Run, raw: RawRun)
    requires ReadAs(raw, run)
    ensures ShowsRun(c.view, raw, ShowAndAttach(c, lease, run, true).view)
    ensures c.view.sessionId == Some(raw.sessionId) ==> ShowsRun(c.view, raw, ShowAndAttach(c, lease, run, false).view)
    ensures forall bound ::
              ShowAndAttach(c, lease, run, bound).view.contextLimited == ShowAndAttach(c, lease, run, bound).contextLimited
  {
    hide PhaseOf;
    PhaseIsShown(run.status);
  }

  lemma SettleShows(c: Ctl, lease: Lease, run: Run, raw: RawRun)
    requires ReadAs(raw, run)
    ensures ShowsRun(c.view, raw, Settle(c, lease, run, true).view)
    ensures c.view.sessionId == Some(raw.sessionId) ==> ShowsRun(c.view, raw, Settle(c, lease, run, false).view)
    ensures forall bound ::
              Settle(c, lease, run, bound).view.contextLimited == Settle(c, lease, run, bound).contextLimited
  {
    hide Confirm, ShowAndAttach, ShowsRun;
    ConfirmIsSameTalk(c, run);
    AttachShows(Confirm(c, run), lease, run, raw);
  }

  // ---------- Replies to readbacks of an ended stream ----------

  /** The readback after a terminal notice must find the run ended; one that finds it
      going on, or completed without its whole text, interrupts the view under the
      status it found. */
  lemma ReconcilesAreShown(scope: Scope, events: seq<Event>, ticket: nat, reply: Reply)
    requires var w := After(Start(scope), events); ticket in w.pending && IsCurrent(w.ctl, w.pending[ticket])
    requires After(Start(scope), events).pending[ticket].AwaitReconcile? && !reply.Refused?
    requires !IsFinal(After(Start(scope), events).ctl.view.phase)
    ensures var w := After(Start(scope), events);
            var c, k, d := w.ctl, w.pending[ticket], Step(w, Answer(ticket, reply)).ctl;
            var defect := Defect(reply, c.scope.workspaceId, Some(k.runId), c.view.sessionId);
            if defect.Some? then
              d.view == Broken(c, defect.value).view.(output := [])
            else if !Ended(reply.raw.status) || TextDefect(reply.raw).Some? then
              d.view == Broken(c, TextDefect(reply.raw).GetOr(TerminalUnconfirmed)).view.(
                          output := [], canonicalStatus := Some(reply.raw.status))
            else
              ShowsRun(c.view, reply.raw, d.view) && d.view.contextLimited == d.contextLimited
  {
    hide After, WorldInv, AsRun, ApplyReconcile, Defect, TextDefect, ShowsRun, CompletionIssue, Ended;
    EveryRunKeepsInv(scope, events);
    var w := After(Start(scope), events);
    var c, k := w.ctl, w.pending[ticket];
    PresentIsValid(w, ticket);
    FinalIsTerminal(c.view.phase);
    DefectBySession(reply, c.scope.workspaceId, Some(k.runId), c.view.sessionId);
    DefectsExactly(reply, c.scope, Some(k.runId));
    if Defect(reply, c.scope.workspaceId, Some(k.runId), None).None? {
      DefectIsOfSession(reply, c.scope.workspaceId, Some(k.runId), None);
      ApplyReconcileShows(c, AsRun(reply, c.scope, Some(k.runId)).value, reply.raw);
    }
  }

  lemma ApplyReconcileShows(c: Ctl, run: Run, raw: RawRun)
    requires run.runId == raw.runId && run.sessionId == raw.sessionId && run.status == raw.status
    requires CompletionIssue(run) == TextDefect(raw)
    requires TextDefect(raw).None? && run.status == StatusCompleted ==> run.output == raw.output
    ensures var d := ApplyReconcile(c, run);
            if !Ended(raw.status) || TextDefect(raw).Some? then
              d.view == Broken(c, TextDefect(raw).GetOr(TerminalUnconfirmed)).view.(
                          output := [], canonicalStatus := Some(raw.status))
            else
              ShowsRun(c.view, raw, d.view) && d.view.contextLimited == d.contextLimited
  {
    hide Confirm, PhaseOf, CompletionIssue, TextDefect, Ended, Terminal;
    ConfirmIsSameTalk(c, run);
    EndedIsTerminal(run.status);
    PhaseIsShown(run.status);
  }

  // ---------- Replies to checks ----------

  /** The newest check shows the run it admits, unless that would take back a terminal
      view. A defect that breaks the owner's contract interrupts the view; any other
      only shows its code. */
  lemma ChecksAreShown(scope: Scope, events: seq<Event>, ticket: nat, reply: Reply)
    requires var w := After(Start(scope), events); ticket in w.pending && IsCurrent(w.ctl, w.pending[ticket])
    requires var w := After(Start(scope), events);
             w.pending[ticket].AwaitRefresh? && w.pending[ticket].check == w.ctl.refreshEpoch && !reply.Refused?
    ensures var w := After(Start(scope), events);
            var c, k, d := w.ctl, w.pending[ticket], Step(w, Answer(ticket, reply)).ctl;
            var defect := Defect(reply, c.scope.workspaceId, Some(k.runId), Some(k.sessionId));
            if defect.Some? || TextDefect(reply.raw).Some? then
              var code := if defect.Some? then defect.value else TextDefect(reply.raw).value;
              d.view == if IsContract(code) then Broken(c, code).view.(output := []) else c.view.(errorCode := Some(code))
            else if IsFinal(c.view.phase) && !Ended(reply.raw.status) then
              d == c
            else if c.view.phase == Running && (reply.raw.status == StatusResuming || reply.raw.status.OtherStatus?) then
              d.view == c.view.(canonicalStatus := Some(reply.raw.status), errorCode := None)
            else
              ShowsRun(c.view, reply.raw, d.view) && d.view.contextLimited == d.contextLimited
  {
    hide After, WorldInv, Verify, AsRun, ApplyRefresh, Defect, TextDefect, ShowsRun, CompletionIssue;
    EveryRunKeepsInv(scope, events);
    var w := After(Start(scope), events);
    var c, k := w.ctl, w.pending[ticket];
    PresentIsValid(w, ticket);
    ReadbackDefectsExactly(reply, c.scope, k.runId, Some(k.sessionId));
    if Defect(reply, c.scope.workspaceId, Some(k.runId), Some(k.sessionId)).None? {
      DefectIsOfSession(reply, c.scope.workspaceId, Some(k.runId), Some(k.sessionId));
      DefectsExactly(reply, c.scope, Some(k.runId));
      if TextDefect(reply.raw).None? {
        ApplyRefreshShows(c, k.lease, AsRun(reply, c.scope, Some(k.runId)).value, reply.raw);
      }
    }
  }

  lemma ApplyRefreshShows(c: Ctl, lease: Lease, run: Run, raw: RawRun)
    requires ReadAs(raw, run)
    ensures var d := ApplyRefresh(c, lease, run);
            if IsFinal(c.view.phase) && !Ended(raw.status) then
              d == c
            else if c.view.phase == Running && (raw.status == StatusResuming || raw.status.OtherStatus?) then
              d.view == c.view.(canonicalStatus := Some(raw.status), errorCode := None)
            else
              ShowsRun(c.view, raw, d.view) && d.view.contextLimited == d.contextLimited
  {
    hide Confirm, ShowAndAttach, Detach, ShowsRun, PhaseOf, Terminal, Ended, IsFinal;
    PhaseIsShown(run.status);
    EndedIsTerminal(run.status);
    FinalIsTerminal(c.view.phase);
    var d := Confirm(c, run);
    ConfirmIsSameTalk(c, run);
    DetachStays(d);
    AttachShows(Detach(d), lease, run, raw);
    AttachShows(Detach(d).(markersRequired := UNKNOWN_MARKERS), lease, run, raw);
  }

  /** A check of a run that is shown as completed and asked for by the active request
      shows the text it reads, but confirms nothing again: the text in view is then that
      of the newest confirmation exactly if the owner repeats it. */
  lemma RecheckAgreesExactly(scope: Scope, events: seq<Event>, ticket: nat, reply: Reply)
    requires var w := After(Start(scope), events); ticket in w.pending && IsCurrent(w.ctl, w.pending[ticket])
    requires var w := After(Start(scope), events);
             && w.pending[ticket].AwaitRefresh? && w.pending[ticket].check == w.ctl.refreshEpoch && !reply.Refused?
             && w.ctl.view.phase == Completed && w.ctl.request.Some?
             && Defect(reply, w.ctl.scope.workspaceId, Some(w.pending[ticket].runId), Some(w.pending[ticket].sessionId)).None?
             && reply.raw.status == StatusCompleted && TextDefect(reply.raw).None?
    ensures var c, d := After(Start(scope), events).ctl, Step(After(Start(scope), events), Answer(ticket, reply)).ctl;
            && d.view.phase == Completed && d.log.confirmations == c.log.confirmations && d.confirmed == c.confirmed
            && (c.log.confirmations != [] ==>
                  var last := c.log.confirmations[|c.log.confirmations| - 1];
                  last.answer == d.view.output <==> reply.raw.output == Some(last.answer))
  {
    hide After, WorldInv, Defect, TextDefect, Verify, AsRun, ApplyRefresh, CompletionIssue;
    var w := After(Start(scope), events);
    var c, k := w.ctl, w.pending[ticket];
    EveryRunKeepsInv(scope, events);
    ConversationConfirmations.EveryRunIsConfirmed(scope, events);
    PresentIsValid(w, ticket);
    ChecksAreShown(scope, events, ticket, reply);
    ReadbackDefectsExactly(reply, c.scope, k.runId, Some(k.sessionId));
    DefectIsOfSession(reply, c.scope.workspaceId, Some(k.runId), Some(k.sessionId));
    DefectsExactly(reply, c.scope, Some(k.runId));
    ReshownIsNotReconfirmed(c, k.lease, AsRun(reply, c.scope, Some(k.runId)).value);
    CompletedHasText(reply.raw);
  }

  lemma ReshownIsNotReconfirmed(c: Ctl, lease: Lease, run: Run)
    requires c.confirmedRun == Some(run.runId)
    ensures var d := ApplyRefresh(c, lease, run); d.log == c.log && d.confirmed == c.confirmed
  {
    hide PhaseOf, Terminal, BoundedHistory;
    assert Confirm(c, run) == c;
  }

  lemma CompletedHasText(raw: RawRun)
    requires raw.status == StatusCompleted && TextDefect(raw).None?
    ensures raw.output.Some?
  {
  }

  // ---------- Replies that open a run ----------

  /** The reply to a send shows the run it admits, with the text so far. A completed
      run is shown as running without text until it is read back. */
  lemma CreatesAreShown(scope: Scope, events: seq<Event>, ticket: nat, reply: Reply)
    requires var w := After(Start(scope), events); ticket in w.pending && IsCurrent(w.ctl, w.pending[ticket])
    requires After(Start(scope), events).pending[ticket].AwaitCreate? && !reply.Refused?
    ensures var w := After(Start(scope), events);
            var c, k, v := w.ctl, w.pending[ticket], Step(w, Answer(ticket, reply));
            var defect := Defect(reply, c.scope.workspaceId, None, k.request.sessionId);
            if defect.Some? then
              v.ctl == Broken(c, defect.value)
            else
              var completed := reply.raw.status == StatusCompleted;
              && v.ctl.view.runId == Some(reply.raw.runId) && v.ctl.view.sessionId == Some(reply.raw.sessionId)
              && v.ctl.view.canonicalStatus == Some(reply.raw.status)
              && (if completed then v.ctl.view.phase == Running else ShownAs(reply.raw.status, v.ctl.view.phase))
              && v.ctl.view.output == (if completed then [] else Take(reply.raw.output.GetOr([]), 65_536))
              && v.ctl.view.errorCode == c.view.errorCode && v.ctl.view.contextLimited == c.view.contextLimited
              && v.pending == if completed then (w.pending - {ticket})[w.tickets := AwaitReconcile(k.lease, reply.raw.runId)]
                              else w.pending - {ticket}
  {
    hide After, WorldInv, Defect, ResumeCreate;
    EveryRunKeepsInv(scope, events);
    var w := After(Start(scope), events);
    PresentIsValid(w, ticket);
    CreateShows(w.ctl, w.pending[ticket].lease, w.pending[ticket].request, reply);
  }

  lemma CreateShows(c: Ctl, lease: Lease, request: Request, reply: Reply)
    requires Valid(c, lease) && !reply.Refused?
    ensures var out := ResumeCreate(c, lease, request, reply);
            var defect := Defect(reply, lease.scope.workspaceId, None, request.sessionId);
            if defect.Some? then
              out == Done(Broken(c, defect.value))
            else
              && reply.RunReply?
              && var completed := reply.raw.status == StatusCompleted;
              && out.ctl.view.runId == Some(reply.raw.runId) && out.ctl.view.sessionId == Some(reply.raw.sessionId)
              && out.ctl.view.canonicalStatus == Some(reply.raw.status)
              && (if completed then out.ctl.view.phase == Running else ShownAs(reply.raw.status, out.ctl.view.phase))
              && out.ctl.view.output == (if completed then [] else Take(reply.raw.output.GetOr([]), 65_536))
              && out.ctl.view.errorCode == c.view.errorCode && out.ctl.view.contextLimited == c.view.contextLimited
              && out.next == if completed then Some(AwaitReconcile(lease, reply.raw.runId)) else None
  {
    hide AsRun, CompletionIssue, TextDefect, Defect, PhaseOf, Terminal;
    DefectsExactly(reply, lease.scope, None);
    DefectBySession(reply, lease.scope.workspaceId, None, request.sessionId);
    if Defect(reply, lease.scope.workspaceId, None, None).None? {
      PhaseIsShown(reply.raw.status);
    }
  }

  /** The reply to a recovery shows the run it admits with its text, and that what came
      before it is unknown. */
  lemma RecoveriesAreShown(scope: Scope, events: seq<Event>, ticket: nat, reply: Reply)
    requires var w := After(Start(scope), events); ticket in w.pending && IsCurrent(w.ctl, w.pending[ticket])
    requires After(Start(scope), events).pending[ticket].AwaitRecover? && !reply.Refused?
    ensures var w := After(Start(scope), events);
            var c, k, d := w.ctl, w.pending[ticket], Step(w, Answer(ticket, reply)).ctl;
            var defect := Defect(reply, c.scope.workspaceId, Some(k.runId), None);
            if defect.Some? || TextDefect(reply.raw).Some? then
              d == Broken(c, if defect.Some? then defect.value else TextDefect(reply.raw).value)
            else
              && d.view.runId == Some(k.runId) && d.view.sessionId == Some(reply.raw.sessionId)
              && d.view.canonicalStatus == Some(reply.raw.status) && ShownAs(reply.raw.status, d.view.phase)
              && d.view.output == Take(reply.raw.output.GetOr([]), 65_536)
              && d.view.contextLimited && d.contextLimited && d.confirmed == c.confirmed && d.confirmedRun == c.confirmedRun
  {
    hide After, WorldInv, Defect, TextDefect, ResumeRecover;
    EveryRunKeepsInv(scope, events);
    var w := After(Start(scope), events);
    PresentIsValid(w, ticket);
    RecoveryShows(w.ctl, w.pending[ticket].lease, w.pending[ticket].runId, reply);
  }

  lemma RecoveryShows(c: Ctl, lease: Lease, runId: Id, reply: Reply)
    requires Valid(c, lease) && !reply.Refused?
    ensures var d := ResumeRecover(c, lease, runId, reply).ctl;
            var defect := Defect(reply, lease.scope.workspaceId, Some(runId), None);
            && (defect.None? ==> reply.RunReply?)
            && if defect.Some? || TextDefect(reply.raw).Some? then
                 d == Broken(c, if defect.Some? then defect.value else TextDefect(reply.raw).value)
               else
                 && d.view.runId == Some(runId) && d.view.sessionId == Some(reply.raw.sessionId)
                 && d.view.canonicalStatus == Some(reply.raw.status) && ShownAs(reply.raw.status, d.view.phase)
                 && d.view.output == Take(reply.raw.output.GetOr([]), 65_536)
                 && d.view.contextLimited && d.contextLimited && d.confirmed == c.confirmed && d.confirmedRun == c.confirmedRun
  {
    hide Verify, AsRun, CompletionIssue, TextDefect, Defect, PhaseOf, Terminal;
    DefectBySession(reply, lease.scope.workspaceId, Some(runId), None);
    ReadbackDefectsExactly(reply, lease.scope, runId, None);
    DefectsExactly(reply, lease.scope, Some(runId));
    if Defect(reply, lease.scope.workspaceId, Some(runId), None).None? {
      DefectIsOfSession(reply, lease.scope.workspaceId, Some(runId), None);
      PhaseIsShown(reply.raw.status);
    }
  }

  // ---------- History pages ----------

  /** The page is well formed and the one that was asked for. */
  ghost predicate IsPage(reply: Reply, workspaceId: string, sessionId: Id, offset: int) {
    && reply.PageReply? && var page := reply.page;
    && page.shapeValid && page.workspaceId == workspaceId && page.sessionId == sessionId && |page.rows| <= 25
    && (page.hasMore ==> page.rows != [] && page.nextOffset.Some? && offset < page.nextOffset.value <= 10_000)
    && (!page.hasMore ==> page.nextOffset.None?)
    && forall i :: 0 <= i < |page.rows| ==>
         page.rows[i].shapeValid && page.rows[i].sessionId == sessionId && IsSafeId(page.rows[i].runId)
  }

  lemma PagesExactly(reply: Reply, workspaceId: string, sessionId: Id, offset: int)
    ensures IsPage(reply, workspaceId, sessionId, offset)
            <==> && reply.PageReply? && PageAdmissible(reply.page, workspaceId, sessionId, offset)
                 && RowsAdmissible(reply.page.rows, sessionId)
  {
    if reply.PageReply? && RowsAdmissible(reply.page.rows, sessionId) {
      var rows := reply.page.rows;
      assert forall i :: 0 <= i < |rows| ==> RowAdmissible(rows[i], sessionId);
    }
  }

  /** The row has its whole question and its whole answer. */
  predicate IsWhole(row: HistoryRow) {
    && row.status == StatusCompleted && row.output.Some? && row.userText.Some? && row.userText.value != []
    && !row.userTruncated && !row.outputTruncated
  }

  ghost predicate RepeatsRun(rows: seq<HistoryRow>) {
    exists i, j :: 0 <= i < j < |rows| && rows[i].runId == rows[j].runId
  }

  /** A row that is cut, or is no completed answer to a question, leaves a gap. */
  ghost predicate HasGap(rows: seq<HistoryRow>) {
    exists i :: 0 <= i < |rows| &&
      (rows[i].userTruncated || rows[i].outputTruncated || rows[i].status != StatusCompleted || rows[i].output.None?
       || rows[i].userText.None? || rows[i].userText.value == [])
  }

  /** The session as it is opened: idle if it is empty, completed if its newest run is
      whole, and else in need of recovery, with a code if that run has completed. The
      context is limited if there are further pages, more than six whole pairs or a gap. */
  ghost predicate Opens(c: Ctl, sessionId: Id, rows: seq<HistoryRow>, more: Option<int>, d: Ctl) {
    && d.view.scope == c.view.scope && d.view.sessionId == Some(sessionId)
    && d.view.contextLimited == d.contextLimited
    && (d.contextLimited <==> more.Some? || |VerifiedPairs(rows)| > 6 || HasGap(rows))
    && d.confirmed == TakeLast(Flatten(VerifiedPairs(rows)), 12)
    && d.older == (if more.Some? then Some(Cursor(c.cursors, sessionId, more.value, |rows|, RunIds(rows))) else None)
    && (if rows == [] then
          && d.view.phase == Idle && d.view.runId.None? && d.view.canonicalStatus.None?
          && d.view.output == [] && d.view.errorCode.None? && d.confirmedRun.None?
        else
          && d.view.runId == Some(rows[0].runId) && d.view.canonicalStatus == Some(rows[0].status)
          && if IsWhole(rows[0]) then
               && d.view.phase == Completed && d.view.output == rows[0].output.value
               && d.view.errorCode.None? && d.confirmedRun == d.view.runId
             else
               && d.view.phase == RecoveryRequired && d.view.output == [] && d.confirmedRun.None?
               && d.view.errorCode == if rows[0].status == StatusCompleted then Some(HistoryFinalUnverified) else None)
  }

  lemma GapsExactly(rows: seq<HistoryRow>)
    ensures HasGap(rows) <==> exists i :: 0 <= i < |rows| && LimitsContext(rows[i])
  {
    if HasGap(rows) {
      var i :| 0 <= i < |rows| &&
        (rows[i].userTruncated || rows[i].outputTruncated || rows[i].status != StatusCompleted || rows[i].output.None?
         || rows[i].userText.None? || rows[i].userText.value == []);
      assert LimitsContext(rows[i]);
    }
  }

  lemma FinishOpenOpens(c: Ctl, sessionId: Id, rows: seq<HistoryRow>, more: Option<int>)
    ensures Opens(c, sessionId, rows, more, FinishOpen(c, sessionId, rows, more).ctl)
  {
    hide Render, VerifiedPairs, Flatten, RunIds, LimitsContext, HasGap;
    GapsExactly(rows);
  }

  /** In every reachable state the first page of an opening is followed by a second one if
      there are more rows; the rows are then shown, unless a page is not the one asked for
      or a run occurs twice. */
  lemma PagesAreShown(scope: Scope, events: seq<Event>, ticket: nat, reply: Reply)
    requires var w := After(Start(scope), events); ticket in w.pending && IsCurrent(w.ctl, w.pending[ticket])
    requires After(Start(scope), events).pending[ticket].AwaitPage? && !reply.Refused?
    ensures var w := After(Start(scope), events);
            var c, k, v := w.ctl, w.pending[ticket], Step(w, Answer(ticket, reply));
            if !IsPage(reply, c.scope.workspaceId, k.sessionId, k.offset) then
              v.ctl == Broken(c, HistoryInvalid) && v.pending == w.pending - {ticket}
            else if reply.page.hasMore && !k.second then
              && v.ctl == c
              && v.pending == (w.pending - {ticket})[w.tickets :=
                   AwaitPage(k.lease, k.sessionId, true, reply.page.nextOffset.value, k.rows + reply.page.rows)]
            else if RepeatsRun(k.rows + reply.page.rows) then
              v.ctl == Broken(c, HistoryDuplicateRun) && v.pending == w.pending - {ticket}
            else
              && Opens(c, k.sessionId, k.rows + reply.page.rows, reply.page.nextOffset, v.ctl)
              && v.pending == w.pending - {ticket}
  {
    hide After, WorldInv, IsPage, PageAdmissible, RowsAdmissible, Opens, FinishOpen, DistinctRuns, RepeatsRun;
    EveryRunKeepsInv(scope, events);
    var w := After(Start(scope), events);
    var c, k := w.ctl, w.pending[ticket];
    PresentIsValid(w, ticket);
    PagesExactly(reply, c.scope.workspaceId, k.sessionId, k.offset);
    if IsPage(reply, c.scope.workspaceId, k.sessionId, k.offset) {
      var rows := k.rows + reply.page.rows;
      RepeatsExactly(rows);
      NextOffsetIsThere(reply, c.scope.workspaceId, k.sessionId, k.offset);
      FinishOpenOpens(c, k.sessionId, rows, reply.page.nextOffset);
      FinishOpenAsksNothing(c, k.sessionId, rows, reply.page.nextOffset);
    }
  }

  lemma RepeatsExactly(rows: seq<HistoryRow>)
    ensures RepeatsRun(rows) <==> !DistinctRuns(rows)
  {
  }

  lemma NextOffsetIsThere(reply: Reply, workspaceId: string, sessionId: Id, offset: int)
    requires IsPage(reply, workspaceId, sessionId, offset)
    ensures reply.PageReply? && (reply.page.hasMore <==> reply.page.nextOffset.Some?)
  {
  }

  lemma FinishOpenAsksNothing(c: Ctl, sessionId: Id, rows: seq<HistoryRow>, more: Option<int>)
    ensures FinishOpen(c, sessionId, rows, more).next.None?
  {
    hide Render, VerifiedPairs, Flatten, RunIds, LimitsContext;
  }

  lemma CursorKnowsRows(w: World)
    requires WorldInv(w)
    ensures DistinctRuns(w.ctl.log.rows)
    ensures w.ctl.older.Some? ==>
              w.ctl.older.value.seen == RunIds(w.ctl.log.rows) && w.ctl.older.value.total == |w.ctl.log.rows|
  {
  }

  lemma RepeatsBetween(a: seq<HistoryRow>, b: seq<HistoryRow>)
    requires DistinctRuns(a)
    ensures RepeatsRun(a + b) <==> !DistinctRuns(b) || !(RunIds(b) !! RunIds(a))
  {
    var all := a + b;
    if i, j :| 0 <= i < j < |all| && all[i].runId == all[j].runId {
      assert j >= |a| && all[j] == b[j - |a|];
      if i < |a| {
        assert all[i] == a[i] && a[i].runId in RunIds(a) && a[i].runId in RunIds(b);
      } else {
        assert all[i] == b[i - |a|];
      }
    }
    if !(RunIds(b) !! RunIds(a)) {
      var id :| id in RunIds(a) && id in RunIds(b);
      var i :| 0 <= i < |a| && a[i].runId == id;
      var j :| 0 <= j < |b| && b[j].runId == id;
      assert all[i].runId == all[|a| + j].runId;
    }
    if !DistinctRuns(b) {
      var i, j :| 0 <= i < j < |b| && b[i].runId == b[j].runId;
      assert all[|a| + i].runId == all[|a| + j].runId;
    }
  }

  /** In every reachable state an older page is added exactly if its cursor is the live one,
      it is the page asked for, and it repeats no run, neither its own nor one shown. It
      leaves a cursor exactly while there is more and fewer than 200 runs are shown. */
  lemma OlderPagesAreAdded(scope: Scope, events: seq<Event>, ticket: nat, reply: Reply)
    requires var w := After(Start(scope), events); ticket in w.pending && IsCurrent(w.ctl, w.pending[ticket])
    requires After(Start(scope), events).pending[ticket].AwaitOlder?
    ensures var w := After(Start(scope), events);
            var c, k, v := w.ctl, w.pending[ticket], Step(w, Answer(ticket, reply));
            var live := c.older.Some? && c.older.value.id == k.cursor;
            && v.pending == w.pending - {ticket} && v.ctl.view == c.view
            && if live && IsPage(reply, c.scope.workspaceId, k.sessionId, k.offset)
                  && !RepeatsRun(c.log.rows + reply.page.rows) then
                 && v.ctl.log.rows == c.log.rows + reply.page.rows
                 && v.ctl.log.applied == c.log.applied + [k.cursor]
                 && v.pane == Render(reply.page.rows) + w.pane
                 && Resume(c, k, reply).delivery
                    == Prepended(Render(reply.page.rows), v.ctl.older.Some?, reply.page.hasMore && v.ctl.older.None?)
                 && (v.ctl.older.Some? <==> reply.page.hasMore && |c.log.rows| + |reply.page.rows| < 200)
                 && (v.ctl.older.Some? ==>
                       && v.ctl.older.value.sessionId == k.sessionId && v.ctl.older.value.offset == reply.page.nextOffset.value
                       && v.ctl.older.value.id == c.cursors)
               else
                 v.ctl == c && v.pane == w.pane
  {
    hide After, WorldInv, IsPage, PageAdmissible, RowsAdmissible, DistinctRuns, RepeatsRun, RunIds;
    EveryRunKeepsInv(scope, events);
    var w := After(Start(scope), events);
    var c, k := w.ctl, w.pending[ticket];
    PresentIsValid(w, ticket);
    PagesExactly(reply, c.scope.workspaceId, k.sessionId, k.offset);
    CursorKnowsRows(w);
    if reply.PageReply? && c.older.Some? {
      RepeatsBetween(c.log.rows, reply.page.rows);
    }
    if IsPage(reply, c.scope.workspaceId, k.sessionId, k.offset) {
      NextOffsetIsThere(reply, c.scope.workspaceId, k.sessionId, k.offset);
    }
  }
}
