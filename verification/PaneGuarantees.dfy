/** What a chat pane promises over whole runs, openings included: when it is busy, when
    older pages can be asked for, and what each message adds. */
module PaneGuarantees {
  import opened Wrappers
  import opened JsText
  import opened ConfirmedHistory
  import opened ConversationTypes
  import opened SessionHistory
  import opened ConversationRun
  import opened HistoryPane

  /** The user opens a session, and the controller answers with what it opened. */
  datatype Move =
    | Opens
    | Opened(generation: nat, shown: View, turns: seq<Turn>, hasOlder: bool, index: Option<nat>)
    | Other(event: Event)

  function Next(w: World, m: Move): World {
    match m
    case Opens => w.(pane := StartOpening(w.pane))
    case Opened(generation, shown, turns, hasOlder, index) =>
      w.(pane := OpenPane(w.pane, generation, shown, turns, hasOlder, index))
    case Other(event) => Step(w, event)
  }

  function Fresh(scope: Scope): World {
    World(Pane(scope, 0, [], None, None, false, false, false), map[], 0)
  }

  function Run(scope: Scope, moves: seq<Move>): World {
    if moves == [] then Fresh(scope) else Next(Run(scope, moves[..|moves| - 1]), moves[|moves| - 1])
  }

  // ---------- Loads ----------

  ghost predicate Present(w: World, t: nat) {
    t in w.loads && w.loads[t].generation == w.pane.generation
  }

  ghost predicate LoadsInv(w: World, scope: Scope) {
    && w.pane.selected == scope
    && (forall t :: t in w.loads ==> t < w.tickets && w.loads[t].scope == scope && w.loads[t].generation <= w.pane.generation)
    && (w.pane.loading <==> exists t :: Present(w, t))
    && (forall t, u :: Present(w, t) && Present(w, u) ==> t == u)
  }

  lemma NextKeepsLoads(w: World, m: Move, scope: Scope)
    requires LoadsInv(w, scope)
    ensures LoadsInv(Next(w, m), scope)
  {
    hide Render, Cells;
    var v := Next(w, m);
    if m.Other? && m.event.LoadOlder? && MayLoad(w.pane) {
      AskedKeepsLoads(w, scope);
    } else if m.Other? && (m.event.Older? || m.event.OlderFailed?) && m.event.ticket in w.loads {
      AnsweredKeepsLoads(w, m, scope);
    } else {
      OthersKeepLoads(w, m, scope);
    }
  }

  lemma AskedKeepsLoads(w: World, scope: Scope)
    requires LoadsInv(w, scope) && MayLoad(w.pane)
    ensures LoadsInv(Step(w, Event.LoadOlder), scope)
  {
    var v := Step(w, Event.LoadOlder);
    assert v.loads == w.loads[w.tickets := Load(w.pane.generation, w.pane.selected)] && v.pane == w.pane.(loading := true);
    assert forall t :: !Present(w, t);
    forall t: nat
      ensures Present(v, t) <==> t == w.tickets
    {
      assert !Present(w, t);
    }
    assert Present(v, w.tickets);
  }

  lemma AnsweredKeepsLoads(w: World, m: Move, scope: Scope)
    requires LoadsInv(w, scope) && m.Other? && (m.event.Older? || m.event.OlderFailed?) && m.event.ticket in w.loads
    ensures LoadsInv(Next(w, m), scope)
  {
    hide Render, Cells;
    var v := Next(w, m);
    assert v.pane.generation == w.pane.generation;
    assert forall t :: Present(v, t) <==> Present(w, t) && t != m.event.ticket;
    if !Present(w, m.event.ticket) && w.pane.loading {
      var t :| Present(w, t);
      assert Present(v, t);
    }
  }

  lemma OthersKeepLoads(w: World, m: Move, scope: Scope)
    requires LoadsInv(w, scope)
    requires !(m.Other? && m.event.LoadOlder? && MayLoad(w.pane))
    requires !(m.Other? && (m.event.Older? || m.event.OlderFailed?) && m.event.ticket in w.loads)
    ensures LoadsInv(Next(w, m), scope)
  {
    hide Render, Cells;
    var v := Next(w, m);
    assert v.loads == w.loads && v.tickets == w.tickets;
    if v.pane.generation == w.pane.generation {
      assert v.pane.loading == w.pane.loading;
      assert forall t :: Present(v, t) <==> Present(w, t);
    } else {
      assert v.pane.generation > w.pane.generation && !v.pane.loading;
      assert forall t :: !Present(v, t);
    }
  }

  lemma {:induction false} RunKeepsLoads(scope: Scope, moves: seq<Move>)
    ensures LoadsInv(Run(scope, moves), scope)
    decreases |moves|
  {
    hide LoadsInv, Next;
    if moves == [] {
      FreshHasNoLoads(scope);
    } else {
      RunKeepsLoads(scope, moves[..|moves| - 1]);
      NextKeepsLoads(Run(scope, moves[..|moves| - 1]), moves[|moves| - 1], scope);
    }
  }

  lemma FreshHasNoLoads(scope: Scope)
    ensures LoadsInv(Fresh(scope), scope)
  {
  }

  /** In every run a pane shows that it loads exactly while one load of its present
      generation is in flight; a further page is asked for exactly if there is one and no
      such load is, and then under that generation. */
  lemma LoadingIsSingle(scope: Scope, moves: seq<Move>)
    ensures var w := Run(scope, moves);
            var v := Next(w, Other(Event.LoadOlder));
            && (w.pane.loading <==> exists t :: Present(w, t))
            && (forall t, u :: Present(w, t) && Present(w, u) ==> t == u)
            && (if w.pane.hasOlder && !exists t :: Present(w, t) then
                  v.loads == w.loads[w.tickets := Load(w.pane.generation, scope)] && v.pane == w.pane.(loading := true)
                else v == w)
  {
    hide Run;
    RunKeepsLoads(scope, moves);
  }

  // ---------- Flags ----------

  /** What a move makes of the busy state, if it concerns it: an opening and a message
      that are taken begin it; the session that was opened, the refusal of the message
      sent and every view of the scope decide it. */
  function SetsBusy(p: Pane, m: Move): Option<bool> {
    match m
    case Opens => if p.busy then None else Some(true)
    case Opened(generation, _, _, _, _) => if generation == p.generation then Some(false) else None
    case Other(event) =>
      match event
      case Sent(payload) => if !p.busy && 1 <= |payload| <= 1_200 then Some(true) else None
      case SendRefused(generation) => if generation == p.generation then Some(false) else None
      case Shown(shown) =>
        if shown.scope == p.selected then Some(shown.phase == Submitting || shown.phase == Running) else None
      case _ => None
  }

  /** What a move makes of whether there is more to load: an opened session and a present
      page say so; an opening and a message that are taken leave nothing to load. */
  function SetsMore(w: World, m: Move): Option<bool> {
    var p := w.pane;
    match m
    case Opens => if p.busy then None else Some(false)
    case Opened(generation, _, _, hasOlder, _) => if generation == p.generation then Some(hasOlder) else None
    case Other(event) =>
      match event
      case Sent(payload) => if !p.busy && 1 <= |payload| <= 1_200 then Some(false) else None
      case Older(ticket, _, more) =>
        if ticket in w.loads && w.loads[ticket] == Load(p.generation, p.selected) then Some(more) else None
      case _ => None
  }

  /** What the last move that concerned it made of a flag. */
  function LastBusy(scope: Scope, moves: seq<Move>): bool {
    if moves == [] then false
    else SetsBusy(Run(scope, moves[..|moves| - 1]).pane, moves[|moves| - 1]).GetOr(LastBusy(scope, moves[..|moves| - 1]))
  }

  function LastMore(scope: Scope, moves: seq<Move>): bool {
    if moves == [] then false
    else SetsMore(Run(scope, moves[..|moves| - 1]), moves[|moves| - 1]).GetOr(LastMore(scope, moves[..|moves| - 1]))
  }

  lemma MoveSetsBusy(w: World, m: Move)
    ensures Next(w, m).pane.busy == SetsBusy(w.pane, m).GetOr(w.pane.busy)
  {
    hide Render, Cells, SettleFinal, UpdateActive;
  }

  lemma MoveSetsMore(w: World, m: Move)
    ensures Next(w, m).pane.hasOlder == SetsMore(w, m).GetOr(w.pane.hasOlder)
  {
    hide Render, Cells, Busy, SettleFinal, UpdateActive;
    ViewsLeaveMore(w.pane, m);
  }

  lemma ViewsLeaveMore(p: Pane, m: Move)
    ensures m.Other? && m.event.Shown? ==> Changed(p, m.event.shown).hasOlder == p.hasOlder
  {
  }

  /** In every run a pane is busy, and has more to load, as the last move that concerned
      it left it. */
  lemma {:induction false} FlagsAreLastSet(scope: Scope, moves: seq<Move>)
    ensures Run(scope, moves).pane.busy == LastBusy(scope, moves)
    ensures Run(scope, moves).pane.hasOlder == LastMore(scope, moves)
    decreases |moves|
  {
    hide Next, SetsBusy, SetsMore;
    if moves != [] {
      FlagsAreLastSet(scope, moves[..|moves| - 1]);
      MoveSetsBusy(Run(scope, moves[..|moves| - 1]), moves[|moves| - 1]);
      MoveSetsMore(Run(scope, moves[..|moves| - 1]), moves[|moves| - 1]);
    }
  }

  /** The generation counts the openings and the messages that were taken. */
  lemma GenerationsCount(w: World, m: Move)
    ensures var taken := if m == Opens then !w.pane.busy
                         else m.Other? && m.event.Sent? && !w.pane.busy && 1 <= |m.event.payload| <= 1_200;
            Next(w, m).pane.generation == w.pane.generation + if taken then 1 else 0
  {
    hide Render, Cells;
  }

  // ---------- Cells ----------

  lemma CellsExactly(turns: seq<Turn>, i: nat)
    requires i < |turns|
    ensures |Cells(turns)| == |turns|
    ensures Cells(turns)[i] == Cell(if turns[i].role == Assistant then Model else Human, turns[i].content)
  {
  }

  /** An opening empties a pane that is not busy, and what it is answered with fills it if
      it is the newest; a message adds its own two cells. Whatever else is late, busy or
      for another scope leaves the cells as they are. */
  lemma MovesWriteExactly(w: World, m: Move)
    ensures var p, q := w.pane, Next(w, m).pane;
            match m
            case Opens => if p.busy then q == p else q.turns == [] && q.activeTurn.None? && q.pending.None?
            case Opened(generation, shown, turns, _, index) =>
              if generation != p.generation then q == p
              else
                && q.turns == Cells(turns) && q.activeTurn.None?
                && q.pending == if shown.errorCode == Some(HistoryFinalUnverified) && shown.runId.Some?
                                then Some(PendingFinal(shown.runId.value, index)) else None
            case Other(event) =>
              match event
              case Sent(payload) =>
                if p.busy || payload == [] || |payload| > 1_200 then q == p
                else
                  && q.turns == p.turns + [Cell(Human, payload), Cell(Model, [])]
                  && q.activeTurn == Some(|p.turns| + 1) && q.pending.None?
              case Shown(shown) => shown.scope != p.selected ==> q == p
              case Older(ticket, rows, _) =>
                q.turns == (if ticket in w.loads && w.loads[ticket] == Load(p.generation, p.selected)
                            then Cells(Render(rows)) else []) + p.turns
              case _ => q.turns == p.turns && q.activeTurn == p.activeTurn && q.pending == p.pending
  {
    hide Render, Cells;
  }

  /** A view of the scope writes into the cell that waits for it and into the cell of the
      active answer, each only if it is a model's, and stops that answer if it is canceled;
      a verified answer without a cell of its own is added. No other cell is touched. */
  lemma ViewsWriteExactly(p: Pane, shown: View, i: nat)
    requires shown.scope == p.selected
    ensures var q := Changed(p, shown);
            var settles := p.pending.Some? && shown.phase == Completed && shown.runId == Some(p.pending.value.runId);
            var own := settles && p.pending.value.outputIndex == Some(i) && i < |p.turns| && p.turns[i].speaker == Model;
            var active := p.activeTurn == Some(i) && i < |p.turns| && p.turns[i].speaker == Model;
            && |p.turns| <= |q.turns| <= |p.turns| + 1
            && (i < |p.turns| ==>
                  q.turns[i] == if active then (if shown.phase == Canceled then Cell(Notice, RESPONSE_STOPPED) else Cell(Model, shown.output))
                                else if own then Cell(Model, shown.output)
                                else p.turns[i])
            && (q.pending == if settles then None else p.pending)
  {
  }
}
