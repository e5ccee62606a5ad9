/** The turn list of a chat pane. Over a historical session older pages are put in
    front, and the verified answer of the newest run replaces exactly its own cell;
    after a send only the cell that it appended is still written. */
module HistoryPane {
  import opened Wrappers
  import opened JsText
  import opened ConfirmedHistory
  import opened ConversationTypes
  import opened SessionHistory
  import opened ConversationRun

  datatype Speaker = Human | Model | Notice

  datatype Cell = Cell(speaker: Speaker, text: Text)

  function Cells(turns: seq<Turn>): (cells: seq<Cell>)
    ensures |cells| == |turns|
  {
    seq(|turns|, i requires 0 <= i < |turns| => Cell(if turns[i].role == User then Human else Model, turns[i].content))
  }

  /** The newest run of an opened session, still to be verified, with the index
      of its answer in the turn list if it has one. */
  datatype PendingFinal = PendingFinal(runId: Id, outputIndex: Option<nat>)

  datatype Pane = Pane(selected: Scope, generation: nat, turns: seq<Cell>, activeTurn: Option<nat>,
                       pending: Option<PendingFinal>, hasOlder: bool, loading: bool, busy: bool)

  /** What a load of older pages captured, and what it is answered with. */
  datatype Load = Load(generation: nat, scope: Scope)

  datatype Loaded = Loaded(turns: seq<Turn>, hasOlder: bool) | Unavailable

  const MAX_MESSAGE: nat := 1_200

  // ---------- What the handlers compute ----------

  function StartOpening(p: Pane): Pane {
    if p.busy then p
    else Pane(p.selected, p.generation + 1, [], None, None, false, false, true)
  }

  function OpenPane(p: Pane, generation: nat, shown: View, turns: seq<Turn>, hasOlder: bool, index: Option<nat>): Pane {
    if generation != p.generation then
      p
    else
      p.(turns := Cells(turns),
         pending := if shown.errorCode == Some(HistoryFinalUnverified) && shown.runId.Some? then
                      Some(PendingFinal(shown.runId.value, index))
                    else None,
         hasOlder := hasOlder, activeTurn := None, busy := false)
  }

  predicate MayLoad(p: Pane) {
    p.hasOlder && !p.loading
  }

  function StartLoading(p: Pane): Pane {
    if MayLoad(p) then p.(loading := true) else p
  }

  /** A late load changes nothing; a present one ends the loading in any case. */
  function FinishLoading(p: Pane, load: Load, reply: Loaded): Pane {
    if load.generation != p.generation then
      p
    else if load.scope != p.selected || reply.Unavailable? then
      p.(loading := false)
    else
      p.(turns := Cells(reply.turns) + p.turns,
         pending := if p.pending.Some? && p.pending.value.outputIndex.Some? then
                      Some(p.pending.value.(outputIndex := Some(p.pending.value.outputIndex.value + |reply.turns|)))
                    else p.pending,
         hasOlder := reply.hasOlder, loading := false)
  }

  /** `payload` is the trimmed text of the composer. */
  predicate MaySend(busy: bool, payload: Text) {
    !busy && payload != [] && |payload| <= MAX_MESSAGE
  }

  function SendTurn(p: Pane, payload: Text): Pane {
    if !MaySend(p.busy, payload) then
      p
    else
      p.(generation := p.generation + 1, pending := None, hasOlder := false, loading := false,
         turns := p.turns + [Cell(Human, payload), Cell(Model, [])],
         activeTurn := Some(|p.turns| + 1), busy := true)
  }

  /** The controller refused the send that made this generation. */
  function SendFailed(p: Pane, generation: nat): Pane {
    if generation == p.generation then p.(busy := false) else p
  }

  predicate Settles(p: Pane, shown: View) {
    && shown.scope == p.selected
    && p.pending.Some? && shown.phase == Completed && shown.runId == Some(p.pending.value.runId)
  }

  predicate IsModelCell(p: Pane, index: Option<nat>) {
    index.Some? && index.value < |p.turns| && p.turns[index.value].speaker == Model
  }

  function SettleFinal(p: Pane, shown: View): Pane {
    if !Settles(p, shown) then
      p
    else
      var index := p.pending.value.outputIndex;
      p.(turns := if IsModelCell(p, index) then p.turns[index.value := Cell(Model, shown.output)]
                  else p.turns + [Cell(Model, shown.output)],
         pending := None)
  }

  function UpdateActive(p: Pane, shown: View): Pane {
    if shown.scope != p.selected || !IsModelCell(p, p.activeTurn) then
      p
    else if shown.phase == Canceled then
      p.(turns := p.turns[p.activeTurn.value := Cell(Notice, RESPONSE_STOPPED)], activeTurn := None)
    else
      p.(turns := p.turns[p.activeTurn.value := Cell(Model, shown.output)])
  }

  /** "Response stopped" */
  const RESPONSE_STOPPED: Text :=
    [82, 101, 115, 112, 111, 110, 115, 101, 32, 115, 116, 111, 112, 112, 101, 100]

  predicate Busy(shown: View) {
    shown.phase == Submitting || shown.phase == Running
  }

  function Changed(p: Pane, shown: View): Pane {
    if shown.scope != p.selected then p
    else UpdateActive(SettleFinal(p, shown), shown).(busy := Busy(shown))
  }

  // ---------- The pane as the object it is ----------

  class ChatPane {
    var selected: Scope
    var generation: nat
    var turns: seq<Cell>
    var activeTurn: Option<nat>
    var pendingHistoryFinal: Option<PendingFinal>
    var historyHasOlder: bool
    var historyLoading: bool
    var busy: bool

    ghost function Abs(): Pane
      reads this
    {
      Pane(selected, generation, turns, activeTurn, pendingHistoryFinal, historyHasOlder, historyLoading, busy)
    }

    constructor (selected: Scope)
      ensures Abs() == Pane(selected, 0, [], None, None, false, false, false)
    {
      this.selected, generation := selected, 0;
      turns, activeTurn, pendingHistoryFinal := [], None, None;
      historyHasOlder, historyLoading, busy := false, false, false;
    }

    method BeginOpening()
      modifies this
      ensures Abs() == StartOpening(old(Abs()))
    {
      if busy {
        return;
      }
      generation := generation + 1;
      turns, activeTurn, busy := [], None, true;
      historyHasOlder, historyLoading, pendingHistoryFinal := false, false, None;
    }

    method FinishOpening(generation: nat, shown: View, restored: seq<Turn>, hasOlder: bool, index: Option<nat>)
      modifies this
      ensures Abs() == OpenPane(old(Abs()), generation, shown, restored, hasOlder, index)
    {
      if generation != this.generation {
        return;
      }
      turns := Cells(restored);
      pendingHistoryFinal :=
        if shown.errorCode == Some(HistoryFinalUnverified) && shown.runId.Some? then
          Some(PendingFinal(shown.runId.value, index))
        else None;
      historyHasOlder := hasOlder;
      activeTurn := None;
      busy := false;
    }

    method BeginLoadingOlder() returns (load: Option<Load>)
      modifies this`historyLoading
      ensures Abs() == StartLoading(old(Abs()))
      ensures load == if MayLoad(old(Abs())) then Some(Load(generation, selected)) else None
    {
      if historyLoading || !historyHasOlder {
        return None;
      }
      load := Some(Load(generation, selected));
      historyLoading := true;
    }

    method FinishLoadingOlder(load: Load, reply: Loaded)
      modifies this
      ensures Abs() == FinishLoading(old(Abs()), load, reply)
    {
      if load.generation != generation {
        return;
      }
      if load.scope == selected && reply.Loaded? {
        turns := Cells(reply.turns) + turns;
        if pendingHistoryFinal.Some? && pendingHistoryFinal.value.outputIndex.Some? {
          pendingHistoryFinal := Some(pendingHistoryFinal.value.(
            outputIndex := Some(pendingHistoryFinal.value.outputIndex.value + |reply.turns|)));
        }
        historyHasOlder := reply.hasOlder;
      }
      historyLoading := false;
    }

    method Send(payload: Text)
      modifies this
      ensures Abs() == SendTurn(old(Abs()), payload)
    {
      if busy || payload == [] || |payload| > MAX_MESSAGE {
        return;
      }
      generation := generation + 1;
      pendingHistoryFinal, historyHasOlder, historyLoading := None, false, false;
      turns := turns + [Cell(Human, payload), Cell(Model, [])];
      activeTurn := Some(|turns| - 1);
      busy := true;
    }

    method FailSending(generation: nat)
      modifies this`busy
      ensures Abs() == SendFailed(old(Abs()), generation)
    {
      if generation == this.generation {
        busy := false;
      }
    }

    method OnChange(shown: View)
      modifies this
      ensures Abs() == Changed(old(Abs()), shown)
    {
      if shown.scope != selected {
        return;
      }
      if pendingHistoryFinal.Some? {
        var pending := pendingHistoryFinal.value;
        if shown.phase == Completed && shown.runId == Some(pending.runId) {
          var index := pending.outputIndex;
          if index.Some? && index.value < |turns| && turns[index.value].speaker == Model {
            turns := turns[index.value := Cell(Model, shown.output)];
          } else {
            turns := turns + [Cell(Model, shown.output)];
          }
          pendingHistoryFinal := None;
        }
      }
      if activeTurn.Some? && activeTurn.value < |turns| && turns[activeTurn.value].speaker == Model {
        if shown.phase == Canceled {
          turns := turns[activeTurn.value := Cell(Notice, RESPONSE_STOPPED)];
          activeTurn := None;
        } else {
          turns := turns[activeTurn.value := Cell(Model, shown.output)];
        }
      }
      busy := shown.phase == Submitting || shown.phase == Running;
    }
  }

  // ---------- A pane among its loads in flight ----------

  /** Loads are answered in any order and at any time, also after a send; the
      controller shows any views. */
  datatype Event =
    | LoadOlder
    | Older(ticket: nat, rows: seq<HistoryRow>, more: bool)
    | OlderFailed(ticket: nat)
    | Shown(shown: View)
    | Sent(payload: Text)
    | SendRefused(generation: nat)

  datatype World = World(pane: Pane, loads: map<nat, Load>, tickets: nat)

  function Step(w: World, e: Event): World {
    match e
    case LoadOlder =>
      if MayLoad(w.pane)
      then World(StartLoading(w.pane), w.loads[w.tickets := Load(w.pane.generation, w.pane.selected)], w.tickets + 1)
      else w
    case Older(ticket, rows, more) =>
      if ticket in w.loads
      then w.(pane := FinishLoading(w.pane, w.loads[ticket], Loaded(Render(rows), more)), loads := w.loads - {ticket})
      else w
    case OlderFailed(ticket) =>
      if ticket in w.loads
      then w.(pane := FinishLoading(w.pane, w.loads[ticket], Unavailable), loads := w.loads - {ticket})
      else w
    case Shown(shown) => w.(pane := Changed(w.pane, shown))
    case Sent(payload) => w.(pane := SendTurn(w.pane, payload))
    case SendRefused(generation) => w.(pane := SendFailed(w.pane, generation))
  }

  function After(w: World, events: seq<Event>): World
    decreases |events|
  {
    if events == [] then w else After(Step(w, events[0]), events[1..])
  }

  lemma {:induction false} AfterAppend(w: World, a: seq<Event>, b: seq<Event>)
    ensures After(w, a + b) == After(After(w, a), b)
    decreases |a|
  {
    hide Step;
    if a == [] {
      assert a + b == b;
    } else {
      AfterAppend(Step(w, a[0]), a[1..], b);
      assert (a + b)[1..] == a[1..] + b;
    }
  }

  /** The load of this ticket is of the present generation and scope. */
  predicate IsPresent(w: World, ticket: nat) {
    ticket in w.loads && w.loads[ticket] == Load(w.pane.generation, w.pane.selected)
  }

  predicate Brings(w: World, e: Event) {
    e.Older? && IsPresent(w, e.ticket)
  }

  /** All rows fetched, newest first: pages of late loads do not count. */
  function Fetched(w: World, rows: seq<HistoryRow>, events: seq<Event>): seq<HistoryRow>
    decreases |events|
  {
    if events == [] then rows
    else Fetched(Step(w, events[0]), if Brings(w, events[0]) then rows + events[0].rows else rows, events[1..])
  }

  /** The text of the first completed view of the newest run, if there is one. */
  function Verified(scope: Scope, runId: Id, events: seq<Event>): Option<Text> {
    if events == [] then
      None
    else if && events[0].Shown? && events[0].shown.scope == scope
            && events[0].shown.phase == Completed && events[0].shown.runId == Some(runId) then
      Some(events[0].shown.output)
    else
      Verified(scope, runId, events[1..])
  }

  /** The rows with the newest one completed by its verified answer. */
  function Filled(rows: seq<HistoryRow>, answer: Option<Text>): seq<HistoryRow> {
    if rows == [] || answer.None? then rows else [rows[0].(output := answer)] + rows[1..]
  }

  predicate NothingSent(events: seq<Event>) {
    forall i :: 0 <= i < |events| ==> !events[i].Sent?
  }

  /** The pane shows `rows` and still waits for the newest run's answer. */
  ghost predicate Waits(p: Pane, rows: seq<HistoryRow>) {
    && rows != [] && FinalUnverified(rows)
    && p.activeTurn == None && p.turns == Cells(Render(rows))
    && p.pending == Some(PendingFinal(rows[0].runId,
                                      if HasAnswer(rows[0]) then Some(|p.turns| - 1) else None))
  }

  ghost predicate Shows(p: Pane, rows: seq<HistoryRow>) {
    p.activeTurn == None && p.pending == None && p.turns == Cells(Render(rows))
  }

  lemma CellsAppend(a: seq<Turn>, b: seq<Turn>)
    ensures Cells(a + b) == Cells(a) + Cells(b)
  {
  }

  /** Whatever arrives but a view or a send: only a present page changes what is
      shown. */
  lemma LoadsKeepRows(w: World, rows: seq<HistoryRow>, e: Event)
    requires !e.Shown? && !e.Sent?
    ensures var fetched := if Brings(w, e) then rows + e.rows else rows;
            && Step(w, e).pane.selected == w.pane.selected
            && (Waits(w.pane, rows) ==> Waits(Step(w, e).pane, fetched))
            && (Shows(w.pane, rows) ==> Shows(Step(w, e).pane, fetched))
  {
    if Brings(w, e) {
      RenderAppend(rows, e.rows);
      CellsAppend(Render(e.rows), Render(rows));
    }
  }

  /** Filling in the answer of the newest run replaces the last cell if that is its
      answer, and adds one otherwise. */
  lemma FilledCells(rows: seq<HistoryRow>, text: Text)
    requires rows != []
    ensures var cells := Cells(Render(rows));
            Cells(Render(Filled(rows, Some(text)))) ==
              (if rows[0].status != StatusCompleted then cells
               else if HasAnswer(rows[0]) then cells[|cells| - 1 := Cell(Model, text)]
               else cells + [Cell(Model, text)])
    ensures HasAnswer(rows[0]) ==> Cells(Render(rows)) != [] && Cells(Render(rows))[|Render(rows)| - 1].speaker == Model
  {
    var filled := Filled(rows, Some(text));
    assert filled[1..] == rows[1..];
    var older := Render(rows[1..]);
    var asked := if HasUserText(rows[0]) then [Turn(User, rows[0].userText.value)] else [];
    assert Render(filled) == older + RowTurns(filled[0]);
    if rows[0].status == StatusCompleted {
      assert RowTurns(filled[0]) == asked + [Turn(Assistant, text)];
      assert Render(filled) == (older + asked) + [Turn(Assistant, text)];
      CellsAppend(older + asked, [Turn(Assistant, text)]);
      if HasAnswer(rows[0]) {
        assert Render(rows) == (older + asked) + [Turn(Assistant, rows[0].output.value)];
        CellsAppend(older + asked, [Turn(Assistant, rows[0].output.value)]);
      } else {
        assert Render(rows) == older + asked;
      }
    }
  }

  lemma AnswerTakesItsCell(p: Pane, rows: seq<HistoryRow>, shown: View)
    requires Waits(p, rows) && Settles(p, shown)
    ensures Shows(Changed(p, shown), Filled(rows, Some(shown.output)))
  {
    hide Cells, Render, Filled;
    FilledCells(rows, shown.output);
  }

  lemma FilledAppend(rows: seq<HistoryRow>, page: seq<HistoryRow>, answer: Option<Text>)
    requires rows != []
    ensures Filled(rows, answer) + page == Filled(rows + page, answer)
  {
  }

  lemma {:induction false} SettledPaneShowsRows(w: World, rows: seq<HistoryRow>, events: seq<Event>)
    requires Shows(w.pane, rows) && NothingSent(events)
    ensures Shows(After(w, events).pane, Fetched(w, rows, events))
    decreases |events|
  {
    hide IsPresent, Render, Cells;
    if events != [] {
      var v := Step(w, events[0]);
      if events[0].Shown? {
        SettledPaneShowsRows(v, rows, events[1..]);
      } else {
        LoadsKeepRows(w, rows, events[0]);
        SettledPaneShowsRows(v, if Brings(w, events[0]) then rows + events[0].rows else rows, events[1..]);
      }
    }
  }

  lemma {:induction false} FetchedFilled(w: World, rows: seq<HistoryRow>, events: seq<Event>, answer: Option<Text>)
    requires rows != []
    ensures Fetched(w, Filled(rows, answer), events) == Filled(Fetched(w, rows, events), answer)
    decreases |events|
  {
    hide Step, IsPresent;
    if events != [] {
      if Brings(w, events[0]) {
        FilledAppend(rows, events[0].rows, answer);
        FetchedFilled(Step(w, events[0]), rows + events[0].rows, events[1..], answer);
      } else {
        FetchedFilled(Step(w, events[0]), rows, events[1..], answer);
      }
    }
  }

  /** However loads, late or not, and views interleave, the turn list is the
      rendering of all fetched rows in which the newest run, and no other turn,
      carries its verified answer once that has been shown. */
  lemma {:induction false} VerifiedAnswerReplacesItsTurn(w: World, rows: seq<HistoryRow>, events: seq<Event>)
    requires Waits(w.pane, rows) && NothingSent(events)
    ensures After(w, events).pane.turns
            == Cells(Render(Filled(Fetched(w, rows, events), Verified(w.pane.selected, rows[0].runId, events))))
    decreases |events|
  {
    hide IsPresent, Render, Cells;
    if events != [] {
      var v := Step(w, events[0]);
      if events[0].Shown? {
        if Settles(w.pane, events[0].shown) {
          AnswerTakesItsCell(w.pane, rows, events[0].shown);
          SettledPaneShowsRows(v, Filled(rows, Some(events[0].shown.output)), events[1..]);
          FetchedFilled(v, rows, events[1..], Some(events[0].shown.output));
        } else {
          VerifiedAnswerReplacesItsTurn(v, rows, events[1..]);
        }
      } else {
        LoadsKeepRows(w, rows, events[0]);
        VerifiedAnswerReplacesItsTurn(v, if Brings(w, events[0]) then rows + events[0].rows else rows, events[1..]);
      }
    }
  }

  /** Opening a session through the controller brings the pane into that state:
      waiting exactly when the newest completed run could not be verified. */
  lemma OpeningShowsRows(p: Pane, c: Ctl, sessionId: Id, rows: seq<HistoryRow>, more: Option<int>)
    ensures var out := FinishOpen(c, sessionId, rows, more);
            var opening := OpenPane(p, p.generation, out.ctl.view, out.delivery.turns,
                                  out.delivery.hasOlder, out.delivery.pendingFinal);
            if FinalUnverified(rows) then Waits(opening, rows) else Shows(opening, rows)
  {
  }

  // ---------- Sends ----------

  /** A conversation without any index: cells that are settled, and the text of the
      answer still being written, if any. */
  datatype Talk = Talk(settled: seq<Cell>, writing: Option<Text>, busy: bool, generation: nat)

  function TalkCells(t: Talk): seq<Cell> {
    t.settled + if t.writing.Some? then [Cell(Model, t.writing.value)] else []
  }

  /** A view writes the answer that is open or stops it; a send settles it and
      opens the next. Loads do nothing. */
  function TalkStep(t: Talk, scope: Scope, e: Event): Talk {
    match e
    case Sent(payload) =>
      if MaySend(t.busy, payload) then Talk(TalkCells(t) + [Cell(Human, payload)], Some([]), true, t.generation + 1) else t
    case Shown(shown) =>
      if shown.scope != scope then t
      else if t.writing.None? then t.(busy := Busy(shown))
      else if shown.phase == Canceled then Talk(t.settled + [Cell(Notice, RESPONSE_STOPPED)], None, false, t.generation)
      else t.(writing := Some(shown.output), busy := Busy(shown))
    case SendRefused(refused) => if refused == t.generation then t.(busy := false) else t
    case _ => t
  }

  function Talked(t: Talk, scope: Scope, events: seq<Event>): Talk
    decreases |events|
  {
    if events == [] then t else Talked(TalkStep(t, scope, events[0]), scope, events[1..])
  }

  /** Every load in flight is of this or an earlier generation. */
  ghost predicate LoadsKnown(w: World) {
    forall t :: t in w.loads ==> w.loads[t].generation <= w.pane.generation
  }

  /** After a send: nothing historical is pending, no page can be asked for, and
      every load in flight is late. */
  ghost predicate Talking(w: World, t: Talk) {
    && w.pane.pending.None? && !w.pane.hasOlder && w.pane.busy == t.busy && w.pane.generation == t.generation
    && w.pane.turns == TalkCells(t)
    && w.pane.activeTurn == (if t.writing.Some? then Some(|t.settled|) else None)
    && forall k :: k in w.loads ==> w.loads[k].generation < w.pane.generation
  }

  function TalkFrom(p: Pane, payload: Text): Talk {
    Talk(p.turns + [Cell(Human, payload)], Some([]), true, p.generation + 1)
  }

  lemma SendStartsTalking(w: World, payload: Text)
    requires LoadsKnown(w) && MaySend(w.pane.busy, payload)
    ensures Talking(Step(w, Sent(payload)), TalkFrom(w.pane, payload))
  {
  }

  lemma StepKeepsTalking(w: World, t: Talk, e: Event)
    requires Talking(w, t)
    ensures Talking(Step(w, e), TalkStep(t, w.pane.selected, e)) && Step(w, e).pane.selected == w.pane.selected
  {
    hide Render, Cells;
  }

  lemma {:induction false} RunKeepsTalking(w: World, t: Talk, events: seq<Event>)
    requires Talking(w, t)
    ensures After(w, events).pane.turns == TalkCells(Talked(t, w.pane.selected, events))
    decreases |events|
  {
    hide Step, TalkStep;
    if events != [] {
      StepKeepsTalking(w, t, events[0]);
      RunKeepsTalking(Step(w, events[0]), TalkStep(t, w.pane.selected, events[0]), events[1..]);
    }
  }

  lemma StepKeepsLoadsKnown(w: World, e: Event)
    requires LoadsKnown(w)
    ensures LoadsKnown(Step(w, e)) && Step(w, e).pane.selected == w.pane.selected
  {
    hide Render, Cells;
  }

  lemma {:induction false} RunKeepsLoadsKnown(w: World, events: seq<Event>)
    requires LoadsKnown(w)
    ensures LoadsKnown(After(w, events)) && After(w, events).pane.selected == w.pane.selected
    decreases |events|
  {
    hide LoadsKnown, Step;
    if events != [] {
      StepKeepsLoadsKnown(w, events[0]);
      RunKeepsLoadsKnown(Step(w, events[0]), events[1..]);
    }
  }

  /** What is settled is never written again. */
  lemma {:induction false} SettledStays(t: Talk, scope: Scope, events: seq<Event>)
    ensures t.settled <= TalkCells(Talked(t, scope, events))
    ensures t.settled <= Talked(t, scope, events).settled
    decreases |events|
  {
    if events != [] {
      SettledStays(TalkStep(t, scope, events[0]), scope, events[1..]);
    }
  }

  /** From any send on, whatever pages still arrive, whatever is shown and however
      often the user sends again: the earlier turns stay as they were, and each
      answer is written only into the cell that its own send appended, until it is
      stopped or the next send settles it. */
  lemma AnswersStayInTheirCells(w: World, before: seq<Event>, payload: Text, events: seq<Event>)
    requires LoadsKnown(w) && MaySend(After(w, before).pane.busy, payload)
    ensures var p := After(w, before).pane;
            var turns := After(w, before + [Sent(payload)] + events).pane.turns;
            && turns == TalkCells(Talked(TalkFrom(p, payload), w.pane.selected, events))
            && p.turns + [Cell(Human, payload)] <= turns
  {
    hide LoadsKnown, Talking, Step, Talked;
    var u := After(w, before);
    var start := TalkFrom(u.pane, payload);
    RunKeepsLoadsKnown(w, before);
    SendStartsTalking(u, payload);
    StepKeepsLoadsKnown(u, Sent(payload));
    RunKeepsTalking(Step(u, Sent(payload)), start, events);
    SettledStays(start, w.pane.selected, events);
    AfterAppend(w, before + [Sent(payload)], events);
    AfterAppend(w, before, [Sent(payload)]);
    AfterOne(u, Sent(payload));
  }

  lemma AfterOne(w: World, e: Event)
    ensures After(w, [e]) == Step(w, e)
  {
    assert [e][1..] == [];
  }

  /** A session that was opened and then continued: the rendering of all rows that
      were fetched before the send, verified answer included, and then the talk. */
  lemma TalkFollowsHistory(w: World, rows: seq<HistoryRow>, before: seq<Event>, payload: Text, events: seq<Event>)
    requires Waits(w.pane, rows) && LoadsKnown(w) && NothingSent(before) && MaySend(After(w, before).pane.busy, payload)
    ensures var history := Cells(Render(Filled(Fetched(w, rows, before), Verified(w.pane.selected, rows[0].runId, before))));
            var talk := Talk(history + [Cell(Human, payload)], Some([]), true, After(w, before).pane.generation + 1);
            After(w, before + [Sent(payload)] + events).pane.turns == TalkCells(Talked(talk, w.pane.selected, events))
  {
    hide After, Waits, LoadsKnown, Talked, Fetched, Verified, Filled, Render, Cells;
    VerifiedAnswerReplacesItsTurn(w, rows, before);
    AnswersStayInTheirCells(w, before, payload, events);
  }

  // ---------- Sends that the controller refuses ----------

  /** The pane takes a message whenever it is not busy; the controller takes it only
      over a settled view. The pane shows a message that the controller refuses
      exactly in the five phases between. */
  lemma RefusedMessageIsShownExactly(p: Pane, c: Ctl, payload: Text, key: Id)
    requires p.busy == Busy(c.view) && !IsBlank(payload) && |payload| <= MAX_MESSAGE && IsSafeId(key)
    ensures MaySend(p.busy, payload) && BeginSend(c, payload, key, None).Failure?
            <==> c.view.phase in {Interrupted, Failed, Blocked, Paused, RecoveryRequired}
  {
    hide IsSafeId;
  }
}
