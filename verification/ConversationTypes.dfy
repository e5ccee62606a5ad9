/** The entities of one chat run: scopes, canonical statuses and the phases they
    show as, owner replies, and the projection checks applied to a reply. */
module ConversationTypes {
  import opened Wrappers
  import opened JsText
  import opened ConfirmedHistory

  type Id = string

  datatype Scope = Scope(systemId: string, workspaceId: string)

  datatype ClientScope = ClientScope(systemId: string, workspaceId: Option<string>)

  /** Both halves of the scope must be present and non-empty. */
  function RequiredScope(scope: ClientScope): Option<Scope> {
    if scope.systemId == "" || scope.workspaceId.GetOr("") == "" then
      None
    else
      Some(Scope(scope.systemId, scope.workspaceId.value))
  }

  datatype Phase =
    | Idle | Submitting | Running | Interrupted | Completed
    | Failed | Canceled | Blocked | Paused | RecoveryRequired

  /** The canonical status strings that are told apart; every other string is
      OtherStatus. */
  datatype Status =
    | StatusCompleted | StatusFailed | StatusCanceled
    | StatusBlocked | StatusBudgetLimited | StatusParked
    | StatusPaused | StatusPausedNoProgress | StatusPausedRecoveryRequired
    | StatusResuming | OtherStatus(name: string)

  function PhaseOf(status: Status): Phase {
    match status
    case StatusCompleted => Completed
    case StatusFailed => Failed
    case StatusCanceled => Canceled
    case StatusBlocked | StatusBudgetLimited | StatusParked => Blocked
    case StatusPaused | StatusPausedNoProgress => Paused
    case StatusPausedRecoveryRequired => RecoveryRequired
    case StatusResuming | OtherStatus(_) => Running
  }

  predicate Terminal(phase: Phase) {
    phase in {Completed, Failed, Canceled, Blocked}
  }

  datatype Code =
    | ScopeRequired | MessageInvalid | RequestIdInvalid | PreviousRunUnresolved
    | NotRetryable | ReconnectUnavailable | ControlIdInvalid | StopUnavailable
    | RefreshUnavailable | PauseUnavailable | ResumeUnavailable
    | SessionIdInvalid | OlderHistoryUnavailable | RunIdInvalid
    | InvalidRunProjection | InvalidRunReceipt
    | OutputMissing | OutputTruncated | SessionBindingMismatch
    | SubmissionUncertain | ReconnectFailed | StopUncertain | RefreshFailed
    | ControlUncertain | ReconcileFailed | TerminalUnconfirmed
    | HistoryInvalid | HistoryDuplicateRun | HistoryUnavailable
    | HistoryFinalUnverified | RecoveryFailed
    | RunNotCancelable | RunNotPausable | RunNotResumable
    | StaleSelection | UpstreamCode(text: string)

  /** A run as the projection checks admit it. */
  datatype Run = Run(runId: Id, sessionId: Id, status: Status, output: Option<Text>, truncated: bool)

  /** A raw owner reply about one run. `shapeValid` stands for the field types,
      the safe id patterns and the canonical source marker; `receiptValid` for
      the bounded usage counters and timestamps. */
  datatype RawRun = RawRun(shapeValid: bool, receiptValid: bool, workspaceId: string,
                           runId: Id, sessionId: Id, status: Status,
                           output: Option<Text>, truncated: bool)

  datatype HistoryRow = HistoryRow(shapeValid: bool, sessionId: Id, runId: Id, status: Status,
                                   userText: Option<Text>, output: Option<Text>,
                                   userTruncated: bool, outputTruncated: bool)

  datatype HistoryPage = HistoryPage(shapeValid: bool, workspaceId: string, sessionId: Id,
                                     rows: seq<HistoryRow>, hasMore: bool, nextOffset: Option<int>)

  /** What an awaited request may be answered with. A refusal carries its code
      when the thrown value has a string code. */
  datatype Reply =
    | RunReply(raw: RawRun)
    | PageReply(page: HistoryPage)
    | Refused(code: Option<Code>)
    | Malformed

  const MAX_OUTPUT: nat := 65_536

  function AsRun(reply: Reply, expected: Scope, runId: Option<Id>): Result<Run, Code>
    requires !reply.Refused?
  {
    if !reply.RunReply? then
      Failure(InvalidRunProjection)
    else
      var raw := reply.raw;
      if || !raw.shapeValid || !IsSafeId(raw.runId) || !IsSafeId(raw.sessionId)
         || raw.workspaceId != expected.workspaceId
         || (runId.Some? && raw.runId != runId.value) then
        Failure(InvalidRunProjection)
      else if !raw.receiptValid then
        Failure(InvalidRunReceipt)
      else
        var clipped := raw.output.Some? && |raw.output.value| > MAX_OUTPUT;
        var output := if raw.output.Some? then Some(Take(raw.output.value, MAX_OUTPUT)) else None;
        Success(Run(raw.runId, raw.sessionId, raw.status, output, raw.truncated || clipped))
  }

  /** The code with which a completed run without its whole final text is
      refused. */
  function CompletionIssue(run: Run): Option<Code> {
    if run.status != StatusCompleted then None
    else if run.truncated then Some(OutputTruncated)
    else if run.output.None? then Some(OutputMissing)
    else None
  }

  /** The readback failures that are reported instead of the refusal that led to
      the readback. */
  predicate IsReadbackIssue(code: Code) {
    code in {OutputMissing, OutputTruncated, SessionBindingMismatch}
  }

  // ---------- What the owner vouches for ----------

  /** The owner stated that `runId` completed with exactly `text`. */
  datatype Fact = Fact(runId: Id, text: Text)

  function RunFacts(raw: RawRun, workspaceId: string): set<Fact> {
    if raw.shapeValid && raw.workspaceId == workspaceId
       && raw.status == StatusCompleted && raw.output.Some? && !raw.truncated
    then {Fact(raw.runId, raw.output.value)} else {}
  }

  function RowFacts(row: HistoryRow): set<Fact> {
    if row.shapeValid && row.status == StatusCompleted && row.output.Some? && !row.outputTruncated
    then {Fact(row.runId, row.output.value)} else {}
  }

  function RowsFacts(rows: seq<HistoryRow>): set<Fact> {
    if rows == [] then {} else RowFacts(rows[0]) + RowsFacts(rows[1..])
  }

  /** Only well-formed replies of the workspace that was asked count. */
  function ReplyFacts(reply: Reply, workspaceId: string): set<Fact> {
    match reply
    case RunReply(raw) => RunFacts(raw, workspaceId)
    case PageReply(page) =>
      if page.shapeValid && page.workspaceId == workspaceId then RowsFacts(page.rows) else {}
    case Refused(_) => {}
    case Malformed => {}
  }

  /** A completed run that passes the projection and the completion check shows
      exactly what the owner vouched for. */
  lemma VerifiedRunIsOwnerFact(reply: Reply, expected: Scope, runId: Option<Id>)
    requires !reply.Refused?
    requires AsRun(reply, expected, runId).Success?
    ensures var run := AsRun(reply, expected, runId).value;
            run.status == StatusCompleted && !run.truncated && run.output.Some? ==>
              Fact(run.runId, run.output.value) in ReplyFacts(reply, expected.workspaceId)
  {
  }

  lemma {:induction false} RowsFactsAppend(a: seq<HistoryRow>, b: seq<HistoryRow>)
    ensures RowsFacts(a + b) == RowsFacts(a) + RowsFacts(b)
  {
    if a == [] {
      assert a + b == b;
    } else {
      RowsFactsAppend(a[1..], b);
      assert (a + b)[1..] == a[1..] + b;
    }
  }

  // ---------- Events of a run stream ----------

  datatype EventKind = AssistantDelta | RunResumed | TerminalNotice | OtherEvent

  datatype StreamEvent = StreamEvent(scope: Scope, runId: Id, eventId: Id, kind: EventKind,
                                     text: Option<Text>, seqNo: nat)
}
