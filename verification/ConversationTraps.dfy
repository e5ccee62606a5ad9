/** Plausible claims that the controller does not keep, each with a run that
    breaks it, and what it keeps instead. */
module ConversationTraps {
  import opened Wrappers
  import opened JsText
  import opened ConfirmedHistory
  import opened ConversationTypes
  import opened SessionHistory
  import opened ConversationRun
  import opened ConversationWorld
  import HistoryPane
  import ChatTalk

  const HOME := Scope("s", "w")

  function Owner(status: Status, output: Option<Text>): Reply {
    RunReply(RawRun(true, true, "w", "r", "c", status, output, false))
  }

  const GOING := Owner(OtherStatus("running"), None)

  function Sent(): World {
    Step(Start(HOME), Call(Send([65], "k", None)))
  }

  lemma SentIsPending()
    ensures var w := Sent();
            && Begin(Init(HOME), Send([65], "k", None)).Success?
            && w.ctl.view == IdleView(HOME).(phase := Submitting) && w.ctl.scope == HOME
            && w.ctl.request.Some? && w.ctl.request.value.serial == 0 && w.ctl.request.value.text == [65]
            && w.ctl.request.value.sessionId.None?
            && w.ctl.confirmed == [] && w.ctl.confirmedRun.None? && w.ctl.log.confirmations == []
            && w.ctl.unsubscribe.None? && w.ctl.subscriptions == [] && w.tickets == 1
            && w.pending == map[0 := AwaitCreate(LeaseOf(w.ctl), w.ctl.request.value)]
  {
    var text: Text := [65];
    assert !IsWhitespace(text[0]);
    assert IsSafeId("k");
    assert BoundedHistory([]) == [];
  }

  /** A send that the owner answers as running. */
  function Going(): World {
    Step(Sent(), Answer(0, GOING))
  }

  lemma GoingIsRunning()
    ensures var w := Going();
            && w.ctl.view.phase == Running && w.ctl.view.runId == Some("r") && w.ctl.view.sessionId == Some("c")
            && w.ctl.scope == HOME && w.ctl.unsubscribe == Some(0) && |w.ctl.subscriptions| == 1
            && w.pending == map[] && w.tickets == 2
  {
    hide Sent;
    SentIsPending();
    assert Sent().pending - {0} == map[];
  }

  /** Stop the run, then ask for its status while the stop is in flight. */
  function StopAndCheck(): World {
    Step(Step(Going(), Call(Stop("o"))), Call(RefreshStatus))
  }

  lemma StopAndCheckIsPending()
    ensures var w := StopAndCheck();
            && w.ctl.view.phase == Submitting && w.ctl.view.runId == Some("r") && w.ctl.view.sessionId == Some("c")
            && w.ctl.scope == HOME && w.ctl.unsubscribe.None?
            && w.tickets == 4
            && w.pending == map[2 := AwaitCancel(LeaseOf(w.ctl), "r", "c"),
                                3 := AwaitRefresh(LeaseOf(w.ctl), "r", "c", w.ctl.refreshEpoch)]
  {
    hide Going;
    GoingIsRunning();
  }

  function CheckedCompleted(): World {
    Step(StopAndCheck(), Answer(3, Owner(StatusCompleted, Some([66]))))
  }

  lemma OwnerChecksOut(status: Status, output: Option<Text>)
    requires output.Some? ==> |output.value| <= MAX_OUTPUT
    requires status == StatusCompleted ==> output.Some?
    ensures Verify(Owner(status, output), HOME, "r", Some("c")) == Success(Run("r", "c", status, output, false))
  {
    assert IsSafeId("r") && IsSafeId("c");
  }

  /** The owner's answer to the check is applied at once. */
  lemma CheckIsApplied(status: Status, output: Option<Text>)
    requires output.Some? ==> |output.value| <= MAX_OUTPUT
    requires status == StatusCompleted ==> output.Some?
    ensures var w := StopAndCheck();
            var v := Step(w, Answer(3, Owner(status, output)));
            && v.ctl == ApplyRefresh(w.ctl, LeaseOf(w.ctl), Run("r", "c", status, output, false))
            && 2 in v.pending && v.pending[2] == AwaitCancel(LeaseOf(w.ctl), "r", "c")
  {
    hide StopAndCheck, ApplyRefresh, Verify;
    StopAndCheckIsPending();
    OwnerChecksOut(status, output);
  }

  lemma CheckCompletesView()
    ensures var w := CheckedCompleted();
            && w.ctl.view.phase == Completed && w.ctl.view.output == [66] && w.ctl.view.runId == Some("r")
            && 2 in w.pending && w.pending[2] == AwaitCancel(LeaseOf(w.ctl), "r", "c")
  {
    hide StopAndCheck, BoundedHistory, Step;
    StopAndCheckIsPending();
    CheckIsApplied(StatusCompleted, Some([66]));
  }

  /** A check completes the run with its whole owner text; the stop, whose
      outcome is then reported unknown, takes the completed view back. */
  lemma StopUndoesCompletedView()
    ensures CheckedCompleted().ctl.view.phase == Completed
    ensures Step(CheckedCompleted(), Answer(2, Refused(None))).ctl.view.phase == Interrupted
  {
    hide CheckedCompleted;
    CheckCompletesView();
  }

  function CheckedRunning(): World {
    Step(StopAndCheck(), Answer(3, GOING))
  }

  lemma CheckResubscribes()
    ensures var w := CheckedRunning();
            && w.ctl.view.phase == Running && w.ctl.view.runId == Some("r") && w.ctl.scope == HOME
            && w.ctl.unsubscribe.Some? && w.ctl.unsubscribe.value < |w.ctl.subscriptions|
            && w.ctl.subscriptions[w.ctl.unsubscribe.value].live
            && 2 in w.pending && w.pending[2] == AwaitCancel(LeaseOf(w.ctl), "r", "c")
  {
    hide StopAndCheck, BoundedHistory, Step;
    StopAndCheckIsPending();
    CheckIsApplied(OtherStatus("running"), None);
  }

  /** A check resubscribes while the stop is in flight; the stop then ends the
      run and leaves that stream live under a terminal view. */
  lemma TerminalViewMayKeepLiveStream()
    ensures var stopped := Step(CheckedRunning(), Answer(2, Owner(StatusCanceled, None)));
            && stopped.ctl.view.phase == Canceled
            && stopped.ctl.unsubscribe.Some?
            && stopped.ctl.unsubscribe.value < |stopped.ctl.subscriptions|
            && stopped.ctl.subscriptions[stopped.ctl.unsubscribe.value].live
  {
    hide CheckedRunning, BoundedHistory, Verify;
    CheckResubscribes();
    OwnerChecksOut(StatusCanceled, None);
  }

  // ---------- Context that a send drops ----------

  lemma {:induction false} AsciiLength(n: nat)
    ensures Utf8Length(seq(n, _ => 97)) == n
  {
    if n > 0 {
      AsciiLength(n - 1);
      assert seq(n, _ => 97)[1..] == seq(n - 1, _ => 97);
    }
  }

  /** A row of the owner's history: question "a" and an answer of n times "a". */
  function LongRow(runId: Id, n: nat): HistoryRow {
    HistoryRow(true, "c", runId, StatusCompleted, Some([97]), Some(seq(n, _ => 97)), false, false)
  }

  const LONG_PAIR := Pair([97], seq(10_000, _ => 97))

  lemma LongPairFitsOnlyOnce()
    ensures BoundedPairs([LONG_PAIR, LONG_PAIR]) == [LONG_PAIR]
  {
    AsciiLength(10_000);
    AsciiLength(1);
    assert [97] == seq(1, _ => 97);
    assert Cost(LONG_PAIR) == 10_001;
    assert OldestKept([LONG_PAIR, LONG_PAIR], 1, 1, 10_001) == 1;
  }

  lemma LongRowsConfirm()
    ensures VerifiedPairs([LongRow("q", 10_000), LongRow("p", 10_000)]) == [LONG_PAIR, LONG_PAIR]
  {
    var newer, older := LongRow("q", 10_000), LongRow("p", 10_000);
    assert [newer, older][1..] == [older];
    assert VerifiedPairs([older]) == [LONG_PAIR];
  }

  const LONG_PAGE := HistoryPage(true, "w", "c", [LongRow("q", 10_000), LongRow("p", 10_000)], false, None)

  function Opening(): World {
    Step(Start(HOME), Call(OpenSession("c")))
  }

  lemma OpeningIsPending()
    ensures var w := Opening();
            && w.ctl.scope == HOME && w.ctl.view == IdleView(HOME).(phase := Submitting)
            && w.ctl.log == EmptyLog && w.tickets == 1 && 0 in w.pending
            && w.pending[0] == AwaitPage(LeaseOf(w.ctl), "c", false, 0, [])
  {
    assert IsSafeId("c");
  }

  lemma LongPageIsAdmissible()
    ensures PageAdmissible(LONG_PAGE, "w", "c", 0) && RowsAdmissible(LONG_PAGE.rows, "c") && DistinctRuns(LONG_PAGE.rows)
  {
    assert IsSafeId("q") && IsSafeId("p");
  }

  function OpenedLong(): World {
    Step(Opening(), Answer(0, PageReply(LONG_PAGE)))
  }

  lemma LongPageIsApplied()
    ensures OpenedLong().ctl == FinishOpen(Opening().ctl, "c", LONG_PAGE.rows, None).ctl
  {
    hide Opening, PageAdmissible, RowsAdmissible, DistinctRuns, FinishOpen;
    OpeningIsPending();
    LongPageIsAdmissible();
    assert [] + LONG_PAGE.rows == LONG_PAGE.rows;
  }

  lemma OpenedLongContext()
    ensures var c := OpenedLong().ctl;
            && c.view.phase == Completed && !c.view.contextLimited && !c.contextLimited
            && c.confirmed == Flatten([LONG_PAIR, LONG_PAIR])
            && c.view.sessionId == Some("c") && c.log.creates == [] && c.scope == HOME
  {
    hide OpenedLong, Opening, VerifiedPairs, Render, Flatten, RunIds;
    OpeningIsPending();
    LongPageIsApplied();
    LongRowsConfirm();
    assert |Flatten([LONG_PAIR, LONG_PAIR])| == 4;
  }

  lemma LongContextIsTrimmed()
    ensures BoundedHistory(Flatten([LONG_PAIR, LONG_PAIR])) == PairTurns(LONG_PAIR)
  {
    hide BoundedPairs, PairsOf;
    LongPairFitsOnlyOnce();
    PairsOfFlatten([LONG_PAIR, LONG_PAIR]);
    assert Flatten([LONG_PAIR]) == PairTurns(LONG_PAIR) + [];
  }

  /** Opening a session limits the context by count only. The next send then
      drops a pair for its size although the view says nothing is missing. */
  lemma OpenedContextIsDroppedUnflagged()
    ensures var restored := OpenedLong();
            var sent := Step(restored, Call(Send([65], "k", None)));
            && |restored.ctl.confirmed| == 4 && !restored.ctl.view.contextLimited
            && |sent.ctl.log.creates| == 1 && |sent.ctl.log.creates[0].request.messages| == 3
            && sent.ctl.view.phase == Submitting && !sent.ctl.view.contextLimited
  {
    hide OpenedLong, BoundedHistory, Flatten;
    OpenedLongContext();
    LongContextIsTrimmed();
    var text: Text := [65];
    assert !IsWhitespace(text[0]);
    assert IsSafeId("k");
  }

  // ---------- A message that takes an earlier answer ----------

  function Lost(): World {
    Step(Going(), StreamLost(0, ReconnectFailed))
  }

  lemma GoingAsked()
    ensures var c := Going().ctl;
            && c.request.Some? && c.request.value.serial == 0 && c.request.value.text == [65]
            && c.confirmed == [] && c.confirmedRun.None? && c.log.confirmations == []
            && c.subscriptions == [Subscription(LeaseOf(c), "r", c.streamEpoch, 0, true)]
            && c.view.output == [] && c.view.scope == HOME
  {
    hide Sent;
    SentIsPending();
  }

  lemma LostIsInterrupted()
    ensures var w := Lost();
            && w.ctl.view.phase == Interrupted && w.ctl.view.runId == Some("r") && w.ctl.view.sessionId == Some("c")
            && w.ctl.view.scope == HOME && w.ctl.scope == HOME && w.ctl.view.output == []
            && w.ctl.request == Going().ctl.request && w.ctl.confirmed == [] && w.ctl.confirmedRun.None?
            && w.ctl.log.confirmations == [] && w.tickets == 3
  {
    hide Going;
    GoingIsRunning();
    GoingAsked();
  }

  function Reconnecting(): World {
    Step(Lost(), Call(Reconnect))
  }

  lemma ReconnectingIsPending()
    ensures var w := Reconnecting();
            && w.ctl.view == Lost().ctl.view.(phase := Submitting, errorCode := None)
            && w.ctl.scope == HOME && w.ctl.request == Lost().ctl.request && w.ctl.confirmed == []
            && w.ctl.confirmedRun.None? && w.ctl.log.confirmations == []
            && 3 in w.pending && w.pending[3] == AwaitReconnect(LeaseOf(w.ctl), "r")
  {
    hide Lost, Going, BoundedHistory, BeginSend, BeginStop, BeginCheckpoint, BeginOpen, BeginRecover, BeginRefresh,
      BeginRetry, BeginOlder, Resume, OnEvent, OnInterrupted, Retarget, Close;
    LostIsInterrupted();
    assert IsSafeId("r");
  }

  function Reconnected(): World {
    Step(Reconnecting(), Answer(3, Owner(StatusCompleted, Some([67]))))
  }

  lemma ReconnectedIsCompleted()
    ensures var w := Reconnected();
            && w.ctl.view.phase == Completed && w.ctl.view.output == [67] && w.ctl.view.scope == HOME
            && w.ctl.log.confirmations == [Confirmation(0, "r", [65], [67])]
  {
    hide Reconnecting, Lost, Going, Verify, Settle, Begin, OnEvent, OnInterrupted, Retarget, Close;
    GoingAsked();
    LostIsInterrupted();
    ReconnectingIsPending();
    OwnerChecksOut(StatusCompleted, Some([67]));
    SettlesFirst(Reconnecting().ctl, LeaseOf(Reconnecting().ctl), Run("r", "c", StatusCompleted, Some([67]), false));
  }

  /** A completed run of a first request that nothing has confirmed yet. */
  lemma SettlesFirst(c: Ctl, lease: Lease, run: Run)
    requires run.status == StatusCompleted && run.output.Some? && !run.truncated
    requires c.request.Some? && c.confirmedRun.None? && c.log.confirmations == []
    ensures var d := Settle(c, lease, run, true);
            && d.view.phase == Completed && d.view.output == run.output.value && d.view.scope == c.view.scope
            && d.log.confirmations
               == [Confirmation(c.request.value.serial, run.runId, c.request.value.text, run.output.value)]
  {
    hide BoundedHistory;
  }

  /** A chat in which "A" is asked and going, and its stream is then lost. */
  function AskedOnce(): ChatTalk.Chat {
    var sent := ChatTalk.Step(ChatTalk.Start(HOME), ChatTalk.Ask([65], "k"));
    ChatTalk.Step(ChatTalk.Step(sent, ChatTalk.Occurs(Answer(0, GOING))), ChatTalk.Occurs(StreamLost(0, ReconnectFailed)))
  }

  /** Then "B" is asked, and the run of "A" is reconnected and found completed. */
  function AskedTwice(): ChatTalk.Chat {
    ChatTalk.Step(AskedOnce(), ChatTalk.Ask([66], "l"))
  }

  function Answered(): ChatTalk.Chat {
    ChatTalk.Step(ChatTalk.Step(AskedTwice(), ChatTalk.Occurs(Call(Reconnect))),
                  ChatTalk.Occurs(Answer(3, Owner(StatusCompleted, Some([67])))))
  }

  const QUESTION_A := HistoryPane.Cell(HistoryPane.Human, [65])
  const QUESTION_B := HistoryPane.Cell(HistoryPane.Human, [66])

  function AnswerCell(text: Text): HistoryPane.Cell {
    HistoryPane.Cell(HistoryPane.Model, text)
  }

  lemma FirstSend()
    ensures var sent := ChatTalk.Step(ChatTalk.Start(HOME), ChatTalk.Ask([65], "k"));
            && sent.world == Sent()
            && sent.pane.turns == [QUESTION_A, AnswerCell([])] && sent.pane.activeTurn == Some(1)
            && sent.pane.selected == HOME && sent.pane.pending.None?
            && sent.asked == [ChatTalk.Message([65], Some(0))]
  {
    hide Step, Begin;
    SentIsPending();
  }

  /** A view in scope that is not canceled fills the open cell. */
  lemma OpenCellIsFilled(p: HistoryPane.Pane, shown: View, i: nat)
    requires p.selected == shown.scope && p.pending.None? && p.activeTurn == Some(i) && i < |p.turns|
    requires p.turns[i].speaker == HistoryPane.Model && shown.phase != Canceled
    ensures HistoryPane.Changed(p, shown)
            == p.(turns := p.turns[i := AnswerCell(shown.output)], busy := HistoryPane.Busy(shown))
  {
  }

  lemma AskedOnceIsLost()
    ensures var j := AskedOnce();
            && j.world == Lost()
            && j.pane.turns == [QUESTION_A, AnswerCell([])] && j.pane.activeTurn == Some(1)
            && j.pane.selected == HOME && j.pane.pending.None? && !j.pane.busy
            && j.asked == [ChatTalk.Message([65], Some(0))]
  {
    hide Step, HistoryPane.Changed;
    var sent := ChatTalk.Step(ChatTalk.Start(HOME), ChatTalk.Ask([65], "k"));
    var going := ChatTalk.Step(sent, ChatTalk.Occurs(Answer(0, GOING)));
    FirstSend();
    GoingIsRunning();
    GoingAsked();
    LostIsInterrupted();
    OpenCellIsFilled(sent.pane, Going().ctl.view, 1);
    OpenCellIsFilled(going.pane, Lost().ctl.view, 1);
  }

  lemma LostRefuses()
    ensures Begin(Lost().ctl, Send([66], "l", None)) == Failure(PreviousRunUnresolved)
  {
    hide Lost, Going, BoundedHistory, ApplySend, SendRequest;
    LostIsInterrupted();
    var text: Text := [66];
    assert !IsWhitespace(text[0]);
    assert IsSafeId("l");
  }

  lemma SecondIsRefused()
    ensures var j := AskedTwice();
            && j.world == Lost()
            && j.pane.turns == [QUESTION_A, AnswerCell([]), QUESTION_B, AnswerCell([])] && j.pane.activeTurn == Some(3)
            && j.pane.selected == HOME && j.pane.pending.None?
            && j.asked == [ChatTalk.Message([65], Some(0)), ChatTalk.Message([66], None)]
  {
    hide AskedOnce, Lost, Begin, Step;
    AskedOnceIsLost();
    LostRefuses();
  }

  /** A message that the controller refused while the run was interrupted is shown
      with the answer of the earlier message once that run is reconnected. */
  lemma RefusedMessageTakesEarlierAnswer()
    ensures var j := Answered();
            && j.asked == [ChatTalk.Message([65], Some(0)), ChatTalk.Message([66], None)]
            && j.pane.turns == [QUESTION_A, AnswerCell([]), QUESTION_B, AnswerCell([67])]
            && j.world.ctl.log.confirmations == [Confirmation(0, "r", [65], [67])]
  {
    hide AskedTwice, Lost, Step, HistoryPane.Changed;
    SecondIsRefused();
    LostIsInterrupted();
    ReconnectingIsPending();
    ReconnectedIsCompleted();
    var j := AskedTwice();
    OpenCellIsFilled(j.pane, Reconnecting().ctl.view, 3);
    OpenCellIsFilled(HistoryPane.Changed(j.pane, Reconnecting().ctl.view), Reconnected().ctl.view, 3);
  }

  // ---------- A text that is shown but not confirmed ----------

  function CheckedOnce(): World {
    Step(Step(Going(), Call(RefreshStatus)), Answer(2, Owner(StatusCompleted, Some([66]))))
  }

  lemma CheckIsAsked(w: World)
    requires w.ctl.view.runId == Some("r") && w.ctl.view.sessionId == Some("c")
    ensures var v := Step(w, Call(RefreshStatus));
            && w.tickets in v.pending && v.tickets == w.tickets + 1
            && v.ctl == w.ctl.(refreshEpoch := w.ctl.refreshEpoch + 1)
            && v.pending[w.tickets] == AwaitRefresh(LeaseOf(w.ctl), "r", "c", v.ctl.refreshEpoch)
  {
    assert IsSafeId("r");
  }

  /** A check that reads the run back as completed is applied at once. */
  lemma CompletedCheckIsApplied(w: World, ticket: nat, text: Text)
    requires |text| <= MAX_OUTPUT && w.ctl.scope == HOME && w.ctl.view.runId == Some("r")
    requires ticket in w.pending && w.pending[ticket] == AwaitRefresh(LeaseOf(w.ctl), "r", "c", w.ctl.refreshEpoch)
    ensures var v := Step(w, Answer(ticket, Owner(StatusCompleted, Some(text))));
            v.ctl == ApplyRefresh(w.ctl, LeaseOf(w.ctl), Run("r", "c", StatusCompleted, Some(text), false))
            && v.tickets == w.tickets + 1
  {
    hide ApplyRefresh, Verify;
    OwnerChecksOut(StatusCompleted, Some(text));
  }

  lemma CheckedOnceConfirms()
    ensures var w := CheckedOnce();
            && w.ctl.view.phase == Completed && w.ctl.view.output == [66] && w.ctl.scope == HOME && w.tickets == 4
            && w.ctl.view.runId == Some("r") && w.ctl.view.sessionId == Some("c")
            && w.ctl.confirmedRun == Some("r") && w.ctl.log.confirmations == [Confirmation(0, "r", [65], [66])]
  {
    hide Going, Step, BoundedHistory;
    GoingIsRunning();
    GoingAsked();
    CheckIsAsked(Going());
    CompletedCheckIsApplied(Step(Going(), Call(RefreshStatus)), 2, [66]);
  }

  function CheckedTwice(): World {
    Step(Step(CheckedOnce(), Call(RefreshStatus)), Answer(4, Owner(StatusCompleted, Some([67]))))
  }

  /** An owner that gives two texts for one completed run: the view shows the second,
      but what was confirmed, and what the next send carries, is the first. */
  lemma SecondTextIsNotConfirmed()
    ensures var c := CheckedTwice().ctl;
            && c.view.phase == Completed && c.view.runId == Some("r") && c.view.output == [67]
            && c.log.confirmations == [Confirmation(0, "r", [65], [66])]
  {
    hide CheckedOnce, Step, BoundedHistory;
    CheckedOnceConfirms();
    CheckIsAsked(CheckedOnce());
    CompletedCheckIsApplied(Step(CheckedOnce(), Call(RefreshStatus)), 4, [67]);
  }
}
