/** What the controller's record of a conversation stays true to: paging of older
    runs, which send confirmed what, and that only owner text is confirmed. */
module ConversationLedger {
  import opened Wrappers
  import opened JsText
  import opened ConfirmedHistory
  import opened ConversationTypes
  import opened SessionHistory
  import opened ConversationRun
  import opened ConversationInvariants

  // ---------- Paging ----------

  ghost predicate Increasing(s: seq<nat>) {
    forall i, j :: 0 <= i < j < |s| ==> s[i] < s[j]
  }

  ghost predicate AllBelow(s: seq<nat>, bound: nat) {
    forall i :: 0 <= i < |s| ==> s[i] < bound
  }

  ghost predicate CursorOk(c: Ctl, cursor: Cursor) {
    && cursor.id < c.cursors && cursor.sessionId == c.log.session
    && 0 <= cursor.offset <= MAX_OFFSET
    && cursor.seen == RunIds(c.log.rows) && cursor.total == |c.log.rows| == |cursor.seen|
    && cursor.total < MAX_VIEWED_RUNS
    && AllBelow(c.log.applied, cursor.id)
  }

  const MAX_SHOWN_RUNS: nat := MAX_VIEWED_RUNS + PAGE_SIZE - 1

  ghost predicate PagingInv(c: Ctl) {
    && DistinctRuns(c.log.rows) && |c.log.rows| <= MAX_SHOWN_RUNS
    && Increasing(c.log.applied) && AllBelow(c.log.applied, c.cursors)
    && (c.older.Some? ==> CursorOk(c, c.older.value))
  }

  lemma PagingFrame(c: Ctl, d: Ctl)
    requires PagingInv(c)
    requires d.log.rows == c.log.rows && d.log.session == c.log.session && d.log.applied == c.log.applied
    requires d.cursors == c.cursors && (d.older == c.older || d.older.None?)
    ensures PagingInv(d)
  {
  }

  lemma FinishOpenKeepsPaging(c: Ctl, sessionId: Id, rows: seq<HistoryRow>, more: Option<int>)
    requires PagingInv(c) && DistinctRuns(rows) && |rows| <= 2 * PAGE_SIZE
    requires more.Some? ==> 0 <= more.value <= MAX_OFFSET
    ensures PagingInv(FinishOpen(c, sessionId, rows, more).ctl)
  {
    DistinctRunsSize(rows);
  }

  lemma ApplyOlderKeepsPaging(c: Ctl, page: HistoryPage)
    requires PagingInv(c) && c.older.Some?
    requires OlderAdmissible(page, c.scope.workspaceId, c.older.value)
    ensures PagingInv(ApplyOlder(c, c.older.value, page).ctl)
  {
    var cursor := c.older.value;
    var rows := c.log.rows + page.rows;
    DistinctRunsAppend(c.log.rows, page.rows);
    RunIdsAppend(c.log.rows, page.rows);
    DistinctRunsSize(rows);
  }

  // ---------- Lineage: sends, creates, answers and confirmations ----------

  ghost predicate CreatesOk(log: Log) {
    && (forall i :: 0 <= i < |log.creates| ==> log.creates[i].request.serial < log.sends)
    && (forall i, j :: 0 <= i < |log.creates| && 0 <= j < |log.creates|
                       && log.creates[i].request.serial == log.creates[j].request.serial
                       ==> log.creates[i].request == log.creates[j].request)
    && (forall i :: 0 < i < |log.creates| ==>
          || log.creates[i].request == log.creates[i - 1].request
          || log.creates[i].phaseBefore in {Idle, Completed, Canceled})
  }

  ghost predicate AskedIn(log: Log, serial: nat, question: Text) {
    exists i :: 0 <= i < |log.creates| && log.creates[i].request.serial == serial
                && log.creates[i].request.text == question
  }

  ghost predicate ConfirmationOk(log: Log, confirmation: Confirmation) {
    && confirmation.serial < log.sends
    && confirmation.serial in log.answers && log.answers[confirmation.serial] == confirmation.runId
    && AskedIn(log, confirmation.serial, confirmation.question)
  }

  ghost predicate ConfirmationsOk(log: Log) {
    && (forall i :: 0 <= i < |log.confirmations| ==> ConfirmationOk(log, log.confirmations[i]))
    && (forall i, j :: 0 <= i < j < |log.confirmations| ==>
          log.confirmations[i].serial < log.confirmations[j].serial)
  }

  ghost predicate AlreadyConfirmed(log: Log, serial: nat) {
    exists i :: 0 <= i < |log.confirmations| && log.confirmations[i].serial == serial
  }

  /** The active request is the last create; an answer ties it to the run in
      view; it confirms that run at most once. */
  ghost predicate RequestOk(log: Log, request: Request, runId: Option<Id>, confirmedRun: Option<Id>) {
    && log.creates != [] && log.creates[|log.creates| - 1].request == request
    && request.serial + 1 == log.sends
    && (runId.Some? ==> request.serial in log.answers && log.answers[request.serial] == runId.value)
    && (AlreadyConfirmed(log, request.serial) ==> runId.Some? && confirmedRun == runId)
  }

  ghost predicate LineageOk(log: Log, request: Option<Request>, runId: Option<Id>, confirmedRun: Option<Id>) {
    && CreatesOk(log) && ConfirmationsOk(log)
    && (request.Some? ==> RequestOk(log, request.value, runId, confirmedRun))
  }

  ghost predicate LineageInv(c: Ctl) {
    LineageOk(c.log, c.request, c.view.runId, c.confirmedRun)
  }

  /** Only these parts of the log matter. */
  lemma LineageFrame(log: Log, after: Log, request: Option<Request>, runId: Option<Id>, confirmedRun: Option<Id>)
    requires LineageOk(log, request, runId, confirmedRun)
    requires after.sends == log.sends && after.creates == log.creates
    requires after.answers == log.answers && after.confirmations == log.confirmations
    ensures LineageOk(after, request, runId, confirmedRun)
  {
    forall i | 0 <= i < |after.confirmations|
      ensures ConfirmationOk(after, after.confirmations[i])
    {
      assert ConfirmationOk(log, log.confirmations[i]);
    }
  }

  lemma AddConfirmation(log: Log, request: Request, runId: Id, answer: Text, confirmedRun: Option<Id>)
    requires LineageOk(log, Some(request), Some(runId), confirmedRun) && confirmedRun != Some(runId)
    ensures var after := log.(confirmations := log.confirmations
                              + [Confirmation(request.serial, runId, request.text, answer)]);
            LineageOk(after, Some(request), Some(runId), Some(runId))
  {
    var after := log.(confirmations := log.confirmations
                      + [Confirmation(request.serial, runId, request.text, answer)]);
    assert !AlreadyConfirmed(log, request.serial);
    forall i | 0 <= i < |after.confirmations|
      ensures ConfirmationOk(after, after.confirmations[i])
      ensures i < |log.confirmations| ==> after.confirmations[i].serial < request.serial
    {
      if i < |log.confirmations| {
        assert ConfirmationOk(log, log.confirmations[i]);
      } else {
        assert log.creates[|log.creates| - 1].request == request;
      }
    }
  }

  lemma ConfirmKeepsLineage(c: Ctl, run: Run)
    requires LineageInv(c) && c.view.runId == Some(run.runId)
    ensures LineageInv(Confirm(c, run))
  {
    if Confirm(c, run) != c {
      AddConfirmation(c.log, c.request.value, run.runId, run.output.value, c.confirmedRun);
    }
  }

  /** A create either repeats the last one or belongs to a new send that was
      allowed by a settled view. */
  lemma AddCreateKeepsLog(log: Log, create: Create, sends: nat)
    requires CreatesOk(log) && ConfirmationsOk(log)
    requires || (&& sends == log.sends && log.creates != []
                 && create.request == log.creates[|log.creates| - 1].request)
             || (&& sends == log.sends + 1 && create.request.serial == log.sends
                 && create.phaseBefore in {Idle, Completed, Canceled})
    ensures var after := log.(sends := sends, creates := log.creates + [create]);
            CreatesOk(after) && ConfirmationsOk(after)
  {
    var after := log.(sends := sends, creates := log.creates + [create]);
    forall i | 0 <= i < |after.confirmations|
      ensures ConfirmationOk(after, after.confirmations[i])
    {
      var confirmation := log.confirmations[i];
      assert ConfirmationOk(log, confirmation);
      var j :| 0 <= j < |log.creates| && log.creates[j].request.serial == confirmation.serial
               && log.creates[j].request.text == confirmation.question;
      assert after.creates[j] == log.creates[j];
    }
  }

  /** A new send has a serial that nothing has confirmed yet. */
  lemma NewSend(log: Log, create: Create, confirmedRun: Option<Id>)
    requires CreatesOk(log) && ConfirmationsOk(log)
    requires create.request.serial == log.sends && create.phaseBefore in {Idle, Completed, Canceled}
    ensures var after := log.(sends := log.sends + 1, creates := log.creates + [create]);
            LineageOk(after, Some(create.request), None, confirmedRun)
  {
    AddCreateKeepsLog(log, create, log.sends + 1);
    forall i | 0 <= i < |log.confirmations|
      ensures log.confirmations[i].serial != log.sends
    {
      assert ConfirmationOk(log, log.confirmations[i]);
    }
  }

  lemma RepeatedCreate(log: Log, request: Request, phaseBefore: Phase, before: Option<Id>, confirmedRun: Option<Id>)
    requires LineageOk(log, Some(request), None, confirmedRun)
    ensures var after := log.(creates := log.creates + [Create(request, phaseBefore, before)]);
            LineageOk(after, Some(request), None, confirmedRun)
  {
    AddCreateKeepsLog(log, Create(request, phaseBefore, before), log.sends);
    assert log.(sends := log.sends) == log;
    forall i | 0 <= i < |log.confirmations|
      ensures log.confirmations[i].serial != request.serial
    {
      assert log.confirmations[i].serial == request.serial ==> AlreadyConfirmed(log, request.serial);
    }
  }

  /** The answer to a create is recorded before anything of that send can be
      confirmed. */
  lemma RecordAnswer(log: Log, request: Request, runId: Id, confirmedRun: Option<Id>)
    requires LineageOk(log, Some(request), None, confirmedRun)
    ensures var after := log.(answers := log.answers[request.serial := runId]);
            LineageOk(after, Some(request), Some(runId), confirmedRun)
  {
    var after := log.(answers := log.answers[request.serial := runId]);
    forall i | 0 <= i < |after.confirmations|
      ensures ConfirmationOk(after, after.confirmations[i])
      ensures after.confirmations[i].serial != request.serial
    {
      assert ConfirmationOk(log, log.confirmations[i]);
      assert log.confirmations[i].serial == request.serial ==> AlreadyConfirmed(log, request.serial);
      assert AskedIn(after, log.confirmations[i].serial, log.confirmations[i].question);
    }
  }

  // ---------- Truth: only owner text is shown as final or reused ----------

  ghost predicate Vouched(facts: set<Fact>, text: Text) {
    exists fact :: fact in facts && fact.text == text
  }

  /** Whole pairs, at most six, every assistant turn vouched for by the owner. */
  ghost predicate ContextOk(facts: set<Fact>, turns: seq<Turn>) {
    && Paired(turns) && |turns| <= 2 * MAX_PAIRS
    && forall turn :: turn in turns && turn.role == Assistant ==> Vouched(facts, turn.content)
  }

  /** A create payload: a verified context followed by the new user turn. */
  ghost predicate PayloadOk(facts: set<Fact>, request: Request) {
    && request.messages != []
    && ContextOk(facts, request.messages[..|request.messages| - 1])
    && request.messages[|request.messages| - 1] == Turn(User, request.text)
  }

  ghost predicate CompletedOk(facts: set<Fact>, view: View) {
    view.phase == Completed ==> view.runId.Some? && Fact(view.runId.value, view.output) in facts
  }

  ghost predicate RecordTrue(facts: set<Fact>, log: Log) {
    && (forall i :: 0 <= i < |log.creates| ==> PayloadOk(facts, log.creates[i].request))
    && (forall i :: 0 <= i < |log.confirmations| ==>
          Fact(log.confirmations[i].runId, log.confirmations[i].answer) in facts)
  }

  ghost predicate TruthInv(c: Ctl, facts: set<Fact>) {
    CompletedOk(facts, c.view) && ContextOk(facts, c.confirmed) && RecordTrue(facts, c.log)
  }

  lemma ContextMonotone(facts: set<Fact>, more: set<Fact>, turns: seq<Turn>)
    requires ContextOk(facts, turns) && facts <= more
    ensures ContextOk(more, turns)
  {
    forall turn | turn in turns && turn.role == Assistant
      ensures Vouched(more, turn.content)
    {
      var fact :| fact in facts && fact.text == turn.content;
      assert fact in more;
    }
  }

  lemma TruthMonotone(c: Ctl, facts: set<Fact>, more: set<Fact>)
    requires TruthInv(c, facts) && facts <= more
    ensures TruthInv(c, more)
  {
    ContextMonotone(facts, more, c.confirmed);
    forall i | 0 <= i < |c.log.creates|
      ensures PayloadOk(more, c.log.creates[i].request)
    {
      var messages := c.log.creates[i].request.messages;
      assert PayloadOk(facts, c.log.creates[i].request);
      ContextMonotone(facts, more, messages[..|messages| - 1]);
    }
  }

  lemma AddCreateKeepsRecord(facts: set<Fact>, log: Log, create: Create, sends: nat)
    requires RecordTrue(facts, log) && PayloadOk(facts, create.request)
    ensures RecordTrue(facts, log.(sends := sends, creates := log.creates + [create]))
  {
  }

  lemma EmptyContext(facts: set<Fact>)
    ensures ContextOk(facts, [])
  {
    assert Flatten([]) == [];
  }

  lemma BoundedHistoryKeepsContext(facts: set<Fact>, turns: seq<Turn>)
    requires forall turn :: turn in turns && turn.role == Assistant ==> Vouched(facts, turn.content)
    ensures ContextOk(facts, BoundedHistory(turns))
  {
    BoundedHistoryIdempotent(turns);
    forall turn | turn in BoundedHistory(turns) && turn.role == Assistant
      ensures Vouched(facts, turn.content)
    {
      BoundedHistorySource(turns, turn);
    }
  }

  lemma ConfirmKeepsTruth(c: Ctl, run: Run, facts: set<Fact>)
    requires TruthInv(c, facts)
    requires run.status == StatusCompleted && run.output.Some? && !run.truncated ==> Fact(run.runId, run.output.value) in facts
    ensures TruthInv(Confirm(c, run), facts)
  {
    var d := Confirm(c, run);
    if d != c {
      var grown := c.confirmed + PairTurns(Pair(c.request.value.text, run.output.value));
      forall turn | turn in grown && turn.role == Assistant
        ensures Vouched(facts, turn.content)
      {
        if turn !in c.confirmed {
          assert turn.content == run.output.value;
          assert Fact(run.runId, run.output.value) in facts;
        }
      }
      BoundedHistoryKeepsContext(facts, grown);
    }
  }

  lemma {:induction false} TakeLastPairs(pairs: seq<Pair>, n: nat)
    ensures TakeLast(Flatten(pairs), 2 * n) == Flatten(TakeLast(pairs, n))
  {
    if |pairs| > n {
      FlattenDrop(pairs, |pairs| - n);
    }
  }

  lemma {:induction false} FlattenAnswers(pairs: seq<Pair>, turn: Turn)
    requires turn in Flatten(pairs) && turn.role == Assistant
    ensures exists pair :: pair in pairs && pair.answer == turn.content
  {
    if turn in Flatten(pairs[1..]) {
      FlattenAnswers(pairs[1..], turn);
      var pair :| pair in pairs[1..] && pair.answer == turn.content;
      assert pair in pairs;
    } else {
      assert pairs[0].answer == turn.content;
    }
  }

  lemma OpenedContext(rows: seq<HistoryRow>, sessionId: Id, facts: set<Fact>)
    requires RowsAdmissible(rows, sessionId) && RowsFacts(rows) <= facts
    ensures ContextOk(facts, TakeLast(Flatten(VerifiedPairs(rows)), MAX_CONFIRMED_TURNS))
  {
    var pairs := VerifiedPairs(rows);
    var last := TakeLast(pairs, MAX_PAIRS);
    TakeLastPairs(pairs, MAX_PAIRS);
    PairsOfFlatten(last);
    forall turn | turn in Flatten(last) && turn.role == Assistant
      ensures Vouched(facts, turn.content)
    {
      FlattenAnswers(last, turn);
      var pair :| pair in last && pair.answer == turn.content;
      assert pair in pairs;
      VerifiedPairsAreFacts(rows, sessionId, pair);
      var fact :| fact in RowsFacts(rows) && fact.text == pair.answer;
      assert fact in facts;
    }
  }

  lemma OpenedViewIsTrue(scope: Scope, sessionId: Id, rows: seq<HistoryRow>, limited: bool)
    requires RowsAdmissible(rows, sessionId)
    ensures CompletedOk(RowsFacts(rows), OpenedView(scope, sessionId, rows, limited))
  {
    assert rows != [] ==> RowAdmissible(rows[0], sessionId);
  }

  lemma FinishOpenKeepsTruth(c: Ctl, sessionId: Id, rows: seq<HistoryRow>, more: Option<int>, facts: set<Fact>)
    requires TruthInv(c, facts) && RowsFacts(rows) <= facts && RowsAdmissible(rows, sessionId)
    ensures TruthInv(FinishOpen(c, sessionId, rows, more).ctl, facts)
  {
    var d := FinishOpen(c, sessionId, rows, more).ctl;
    OpenedContext(rows, sessionId, facts);
    OpenedViewIsTrue(c.view.scope, sessionId, rows, d.contextLimited);
    assert d.log.creates == c.log.creates && d.log.confirmations == c.log.confirmations;
  }

  // ---------- All three together ----------

  ghost predicate LedgerInv(c: Ctl, facts: set<Fact>) {
    PagingInv(c) && LineageInv(c) && TruthInv(c, facts)
  }

  /** A change that leaves the record alone. */
  ghost predicate SameRecord(c: Ctl, d: Ctl) {
    && d.log == c.log && d.cursors == c.cursors
    && (d.older == c.older || d.older.None?)
    && ((d.confirmed == c.confirmed && d.confirmedRun == c.confirmedRun && d.request == c.request
         && d.view.runId == c.view.runId)
        || (d.request.None? && (d.confirmed == c.confirmed || d.confirmed == [])))
  }

  lemma SameRecordKeepsLedger(c: Ctl, d: Ctl, facts: set<Fact>)
    requires LedgerInv(c, facts) && SameRecord(c, d) && CompletedOk(facts, d.view)
    ensures LedgerInv(d, facts)
  {
    PagingFrame(c, d);
    EmptyContext(facts);
  }

  lemma SameViewKeepsLedger(c: Ctl, d: Ctl, facts: set<Fact>)
    requires LedgerInv(c, facts) && SameRecord(c, d) && d.view == c.view
    ensures LedgerInv(d, facts)
  {
    SameRecordKeepsLedger(c, d, facts);
  }

  lemma ConfirmKeepsLedger(c: Ctl, run: Run, facts: set<Fact>)
    requires LedgerInv(c, facts) && c.view.runId == Some(run.runId)
    requires run.status == StatusCompleted && run.output.Some? && !run.truncated ==> Fact(run.runId, run.output.value) in facts
    ensures LedgerInv(Confirm(c, run), facts) && Confirm(c, run).view == c.view
  {
    PagingFrame(c, Confirm(c, run));
    ConfirmKeepsLineage(c, run);
    ConfirmKeepsTruth(c, run, facts);
  }
}
