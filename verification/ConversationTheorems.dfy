/** What holds in every run of the chat controller, for every interleaving of
    replies, stream callbacks, retargets and user actions. */
module ConversationTheorems {
  import opened Wrappers
  import opened JsText
  import opened ConfirmedHistory
  import opened ConversationTypes
  import opened SessionHistory
  import opened ConversationRun
  import opened ConversationInvariants
  import opened ConversationProgress
  import opened ConversationLedger
  import opened ConversationLedgerSteps
  import opened ConversationWorld
  import opened ConversationContext

  // ---------- Stale continuations ----------

  /** A reply whose captured epoch, scope or selection is not the present one
      changes nothing; at most a refused control still asks for its readback. */
  lemma StaleReplyIsInert(c: Ctl, k: Continuation, reply: Reply)
    requires !Valid(c, k.lease)
    ensures Resume(c, k, reply).ctl == c && Resume(c, k, reply).delivery == Nothing
    ensures var next := Resume(c, k, reply).next;
            next.Some? ==> reply.Refused? && next.value.lease == k.lease
                           && (next.value.AwaitCancelReadback? || next.value.AwaitCheckpointReadback?)
  {
  }

  lemma StepKeepsTicket(w: World, e: Event, ticket: nat)
    requires WorldInv(w) && ticket in w.pending
    ensures Step(w, e).tickets >= w.tickets && Step(w, e).ctl.epoch >= w.ctl.epoch
    ensures ticket in Step(w, e).pending ==> Step(w, e).pending[ticket] == w.pending[ticket]
  {
    hide CoreInv, LedgerInv, ResponsibilityInv, BoundedHistory, Verify, AsRun;
    assert PendingOk(w, ticket);
    StepKeepsEpoch(w, e);
  }

  lemma StepKeepsEpoch(w: World, e: Event)
    requires WorldInv(w)
    ensures Step(w, e).ctl.epoch >= w.ctl.epoch
  {
    hide LedgerInv, ResponsibilityInv, Begin, Resume, OnEvent, OnInterrupted, StreamInv, ContinuationOk, Delivers, NextOk;
    match e {
      case Call(command) =>
        if Begin(w.ctl, command).Success? {
          CursorIsKnown(w);
          BeginIsCompatible(w.ctl, command);
        }
      case Answer(ticket, reply) =>
        if OpensNow(w, ticket) {
          assert PendingOk(w, ticket);
          var k := w.pending[ticket];
          match k {
            case AwaitCreate(_, _) => CreateIsCovered(w.ctl, k, reply);
            case AwaitPage(_, _, _, _, _) => PageIsCovered(w.ctl, k, reply);
            case AwaitRecover(_, _) => RecoverIsCovered(w.ctl, k, reply);
          }
        } else if ticket in w.pending {
          AnswerIsCompatible(w, ticket, reply);
        }
      case Streamed(index, event) =>
        if index < |w.ctl.subscriptions| { EventIsCovered(w.ctl, index, event); }
      case StreamLost(index, code) =>
        if index < |w.ctl.subscriptions| { InterruptionIsCovered(w.ctl, index, code); }
      case _ =>
    }
  }

  lemma {:induction false} OutdatedStaysOutdated(w: World, ticket: nat, events: seq<Event>)
    requires WorldInv(w) && ticket in w.pending && w.pending[ticket].lease.epoch < w.ctl.epoch
    ensures var v := After(w, events);
            ticket in v.pending ==> v.pending[ticket] == w.pending[ticket] && v.pending[ticket].lease.epoch < v.ctl.epoch
    decreases |events|
  {
    hide WorldInv, Step;
    if events != [] {
      var v := Step(w, events[0]);
      StepKeepsTicket(w, events[0], ticket);
      StepKeepsInv(w, events[0]);
      if ticket in v.pending {
        OutdatedStaysOutdated(v, ticket, events[1..]);
      } else {
        AnsweredStaysAnswered(w, events, ticket);
      }
    }
  }

  /** Tickets are never reused. */
  lemma {:induction false} AnsweredStaysAnswered(w: World, events: seq<Event>, ticket: nat)
    requires WorldInv(w) && events != [] && ticket in w.pending && ticket !in Step(w, events[0]).pending
    ensures ticket !in After(w, events).pending
  {
    hide WorldInv, Step;
    var v := Step(w, events[0]);
    StepKeepsInv(w, events[0]);
    TicketWasIssued(w, events[0], ticket);
    AbsentStaysAbsent(v, events[1..], ticket);
  }

  lemma TicketWasIssued(w: World, e: Event, ticket: nat)
    requires WorldInv(w) && ticket in w.pending
    ensures ticket < Step(w, e).tickets
  {
    assert PendingOk(w, ticket);
    StepKeepsTicket(w, e, ticket);
  }

  lemma StepAddsOnlyNewTicket(w: World, e: Event, ticket: nat)
    requires ticket < w.tickets && ticket !in w.pending
    ensures ticket < Step(w, e).tickets && ticket !in Step(w, e).pending
  {
    hide Begin, Resume, OnEvent, OnInterrupted, Retarget, Close, ReplyFacts;
  }

  lemma {:induction false} AbsentStaysAbsent(w: World, events: seq<Event>, ticket: nat)
    requires ticket < w.tickets && ticket !in w.pending
    ensures ticket !in After(w, events).pending
    decreases |events|
  {
    hide Step;
    if events != [] {
      StepAddsOnlyNewTicket(w, events[0], ticket);
      AbsentStaysAbsent(Step(w, events[0]), events[1..], ticket);
    }
  }

  /** The user actions that start a new epoch. */
  predicate Renews(w: World, e: Event) {
    match e
    case Call(command) =>
      Begin(w.ctl, command).Success?
      && (command.Send? || command.Stop? || command.Checkpoint? || command.OpenSession? || command.Recover?)
    case Retargeted(scope) => RequiredScope(scope).Some?
    case Closed => true
    case _ => false
  }

  lemma RenewalRaisesEpoch(w: World, e: Event)
    requires Renews(w, e)
    ensures Step(w, e).ctl.epoch > w.ctl.epoch
  {
    hide BoundedHistory;
  }

  /** Whatever was in flight before a send, stop, pause, resume, open, recover,
      retarget or close can never again change the controller, whatever happens
      in between: in particular after retargets from A to B and back to A. */
  lemma RenewalOutdatesRequests(w: World, ticket: nat, e: Event, events: seq<Event>, reply: Reply)
    requires WorldInv(w) && ticket in w.pending && Renews(w, e)
    ensures var v := After(Step(w, e), events);
            Step(v, Answer(ticket, reply)).ctl == v.ctl && Step(v, Answer(ticket, reply)).pane == v.pane
  {
    hide After, WorldInv, Step;
    OutdatedAfterRenewal(w, ticket, e, events);
    OutdatedAnswerIsInert(After(Step(w, e), events), ticket, reply);
  }

  /** The readback that a refused control still asks for is as outdated as the
      control: its answer changes nothing either, and asks for nothing more. */
  lemma RenewalOutdatesFollowUps(w: World, ticket: nat, e: Event, events: seq<Event>, reply: Reply,
                                 followUp: nat, more: seq<Event>, later: Reply)
    requires WorldInv(w) && ticket in w.pending && Renews(w, e)
    requires var v := After(Step(w, e), events);
             followUp in Step(v, Answer(ticket, reply)).pending && followUp !in v.pending
    ensures var u := After(Step(After(Step(w, e), events), Answer(ticket, reply)), more);
            var answered := Step(u, Answer(followUp, later));
            answered.ctl == u.ctl && answered.pane == u.pane && answered.pending == u.pending - {followUp}
  {
    hide After, WorldInv, Step, OutdatedReadback;
    var v := After(Step(w, e), events);
    OutdatedAfterRenewal(w, ticket, e, events);
    if ticket !in v.pending {
      UnknownTicket(v, ticket, reply);
    }
    FollowUpIsOutdated(v, ticket, reply, followUp);
    StepKeepsInv(v, Answer(ticket, reply));
    OutdatedReadbackStays(Step(v, Answer(ticket, reply)), followUp, more);
    OutdatedReadbackEnds(After(Step(v, Answer(ticket, reply)), more), followUp, later);
  }

  lemma OutdatedAfterRenewal(w: World, ticket: nat, e: Event, events: seq<Event>)
    requires WorldInv(w) && ticket in w.pending && Renews(w, e)
    ensures var v := After(Step(w, e), events);
            WorldInv(v) && (ticket in v.pending ==> v.pending[ticket].lease.epoch < v.ctl.epoch)
  {
    hide WorldInv, Step;
    var u := Step(w, e);
    RenewalRaisesEpoch(w, e);
    StepKeepsInv(w, e);
    RunKeepsInv(u, events);
    StepKeepsTicket(w, e, ticket);
    LeaseIsKnown(w, ticket);
    if ticket in u.pending {
      OutdatedStaysOutdated(u, ticket, events);
    } else {
      TicketWasIssued(w, e, ticket);
      AbsentStaysAbsent(u, events, ticket);
    }
  }

  lemma OutdatedReadbackStays(w: World, ticket: nat, events: seq<Event>)
    requires WorldInv(w) && ticket in w.pending && OutdatedReadback(w, ticket)
    ensures OutdatedReadback(After(w, events), ticket)
  {
    hide After, WorldInv;
    OutdatedStaysOutdated(w, ticket, events);
  }

  predicate OutdatedReadback(w: World, ticket: nat) {
    ticket in w.pending ==>
      && w.pending[ticket].lease.epoch < w.ctl.epoch
      && (w.pending[ticket].AwaitCancelReadback? || w.pending[ticket].AwaitCheckpointReadback?)
  }

  lemma FollowUpIsOutdated(w: World, ticket: nat, reply: Reply, followUp: nat)
    requires ticket in w.pending && w.pending[ticket].lease.epoch < w.ctl.epoch
    requires followUp in Step(w, Answer(ticket, reply)).pending && followUp !in w.pending
    ensures OutdatedReadback(Step(w, Answer(ticket, reply)), followUp)
  {
    hide Resume;
    StaleReplyIsInert(w.ctl, w.pending[ticket], reply);
  }

  lemma OutdatedReadbackEnds(w: World, ticket: nat, reply: Reply)
    requires OutdatedReadback(w, ticket)
    ensures var v := Step(w, Answer(ticket, reply));
            v.ctl == w.ctl && v.pane == w.pane && v.pending == w.pending - {ticket}
  {
    hide AsRun, Verify, Settle;
  }

  lemma OutdatedAnswerIsInert(w: World, ticket: nat, reply: Reply)
    requires ticket in w.pending ==> w.pending[ticket].lease.epoch < w.ctl.epoch
    ensures Step(w, Answer(ticket, reply)).ctl == w.ctl && Step(w, Answer(ticket, reply)).pane == w.pane
  {
    hide Resume;
    if ticket in w.pending {
      StaleReplyIsInert(w.ctl, w.pending[ticket], reply);
    }
  }

  lemma LeaseIsKnown(w: World, ticket: nat)
    requires WorldInv(w) && ticket in w.pending
    ensures w.pending[ticket].lease.epoch <= w.ctl.epoch
  {
    assert PendingOk(w, ticket);
  }

  lemma EveryRunKeepsInv(scope: Scope, events: seq<Event>)
    ensures WorldInv(After(Start(scope), events))
  {
    StartInv(scope);
    RunKeepsInv(Start(scope), events);
  }

  /** The view never shows one scope while the client queries another. */
  lemma ViewFollowsClient(scope: Scope, events: seq<Event>)
    ensures var c := After(Start(scope), events).ctl; c.view.scope == c.scope
  {
    hide After;
    EveryRunKeepsInv(scope, events);
  }

  // ---------- Streams and progress ----------

  /** At most one subscription is ever live, and it is the attached one, of the
      present epochs, for the run in view. */
  lemma AtMostOneLiveStream(scope: Scope, events: seq<Event>, i: nat)
    ensures var c := After(Start(scope), events).ctl;
            i < |c.subscriptions| && c.subscriptions[i].live ==>
              && c.unsubscribe == Some(i)
              && c.subscriptions[i].lease == LeaseOf(c) && c.subscriptions[i].streamEpoch == c.streamEpoch
              && c.view.runId == Some(c.subscriptions[i].runId)
  {
    hide After;
    EveryRunKeepsInv(scope, events);
    var c := After(Start(scope), events).ctl;
    assert i < |c.subscriptions| ==> SubscriptionOk(c, i);
  }

  /** A callback of a subscription that is not live changes nothing. */
  lemma DeadStreamIsSilent(scope: Scope, events: seq<Event>, i: nat, event: StreamEvent, code: Code)
    ensures var c := After(Start(scope), events).ctl;
            i < |c.subscriptions| && !c.subscriptions[i].live ==>
              OnEvent(c, i, event) == Done(c) && OnInterrupted(c, i, code) == Done(c)
  {
    hide After;
    EveryRunKeepsInv(scope, events);
    var c := After(Start(scope), events).ctl;
    if i < |c.subscriptions| && Accepts(c, c.subscriptions[i]) {
      OnlyAttachedStreamIsHeard(c, i);
    }
  }

  ghost predicate HasLiveStream(c: Ctl) {
    exists i: nat :: i < |c.subscriptions| && c.subscriptions[i].live && c.view.runId == Some(c.subscriptions[i].runId)
  }

  /** A running view is never orphaned: its stream is live, or a readback of its
      run is in flight for the present epoch. */
  lemma RunningIsNeverOrphaned(scope: Scope, events: seq<Event>)
    ensures var w := After(Start(scope), events);
            w.ctl.view.phase == Running ==>
              HasLiveStream(w.ctl)
              || exists t :: ReconcilesNow(w, t) && w.ctl.view.runId == Some(w.pending[t].runId)
  {
    hide After;
    EveryRunKeepsInv(scope, events);
    var w := After(Start(scope), events);
    if w.ctl.view.phase == Running {
      if w.ctl.unsubscribe.Some? {
        assert SubscriptionOk(w.ctl, w.ctl.unsubscribe.value);
      } else {
        var t :| ReconcilesNow(w, t);
        assert PendingOk(w, t);
      }
    }
  }

  /** Once every request of the present epoch is answered, the view has settled:
      it is not submitting, and if it is running its stream is live. */
  lemma QuiescentViewIsSettled(scope: Scope, events: seq<Event>)
    ensures var w := After(Start(scope), events);
            (forall t :: t in w.pending ==> !IsCurrent(w.ctl, w.pending[t])) ==>
              w.ctl.view.phase != Submitting && (w.ctl.view.phase == Running ==> HasLiveStream(w.ctl))
  {
    hide After;
    EveryRunKeepsInv(scope, events);
    RunningIsNeverOrphaned(scope, events);
  }

  // ---------- Owner truth ----------

  /** The i-th event answers a request of the run with a well-formed reply, of the
      workspace that was asked, that states the fact. */
  ghost predicate Said(w: World, events: seq<Event>, i: nat, fact: Fact) {
    && i < |events| && events[i].Answer?
    && var v := After(w, events[..i]);
       events[i].ticket in v.pending && fact in ReplyFacts(events[i].reply, Asked(v, events[i].ticket))
  }

  lemma SaidLater(w: World, events: seq<Event>, i: nat, fact: Fact)
    requires events != [] && Said(Step(w, events[0]), events[1..], i, fact)
    ensures Said(w, events, i + 1, fact)
  {
    hide Step, ReplyFacts;
    assert events[..i + 1][0] == events[0] && events[..i + 1][1..] == events[1..][..i];
  }

  /** Facts come from replies and from nowhere else. */
  lemma {:induction false} FactsComeFromReplies(w: World, events: seq<Event>, fact: Fact)
    requires fact in After(w, events).facts && fact !in w.facts
    ensures exists i: nat :: Said(w, events, i, fact)
    decreases |events|
  {
    hide Begin, Resume, OnEvent, OnInterrupted, Retarget, Close, ReplyFacts;
    if events != [] {
      var v := Step(w, events[0]);
      if fact in v.facts {
        assert events[..0] == [] && After(w, []) == w;
        assert Said(w, events, 0, fact);
      } else {
        FactsComeFromReplies(v, events[1..], fact);
        var i: nat :| Said(v, events[1..], i, fact);
        SaidLater(w, events, i, fact);
      }
    }
  }

  ghost predicate OwnerSaid(scope: Scope, events: seq<Event>, fact: Fact) {
    exists i: nat :: Said(Start(scope), events, i, fact)
  }

  /** A completed view shows, for its run, exactly a whole text that an owner
      reply gave as the output of that completed run. */
  lemma CompletedViewIsOwnerText(scope: Scope, events: seq<Event>)
    ensures var view := After(Start(scope), events).ctl.view;
            view.phase == Completed ==>
              view.runId.Some? && OwnerSaid(scope, events, Fact(view.runId.value, view.output))
  {
    hide After;
    EveryRunKeepsInv(scope, events);
    var view := After(Start(scope), events).ctl.view;
    if view.phase == Completed {
      FactsComeFromReplies(Start(scope), events, Fact(view.runId.value, view.output));
    }
  }

  /** Every create payload is at most six whole pairs, of at most 18000 bytes in
      UTF-8 together, and then the new user turn; each assistant message in it is a whole text that an owner reply gave for a
      completed run. Streamed text never enters a payload. */
  lemma PayloadsAreOwnerText(scope: Scope, events: seq<Event>, i: nat)
    ensures var log := After(Start(scope), events).ctl.log;
            i < |log.creates| ==>
              var request := log.creates[i].request;
              && 1 <= |request.messages| <= 13
              && request.messages[|request.messages| - 1] == Turn(User, request.text)
              && Paired(request.messages[..|request.messages| - 1])
              && TotalCost(PairsOf(request.messages[..|request.messages| - 1])) <= 18_000
              && forall turn :: turn in request.messages && turn.role == Assistant ==>
                   exists runId :: OwnerSaid(scope, events, Fact(runId, turn.content))
  {
    hide After, OwnerSaid;
    EveryRunKeepsInv(scope, events);
    var w := After(Start(scope), events);
    if i < |w.ctl.log.creates| {
      var request := w.ctl.log.creates[i].request;
      PayloadContext(w, i);
      EveryContextIsKnown(scope, events);
      assert PayloadFits(request);
      forall turn | turn in request.messages && turn.role == Assistant
        ensures exists runId :: OwnerSaid(scope, events, Fact(runId, turn.content))
      {
        PayloadTurn(w, i, turn);
        VouchedIsSaid(scope, events, turn.content);
      }
    }
  }

  lemma PayloadContext(w: World, i: nat)
    requires WorldInv(w) && i < |w.ctl.log.creates|
    ensures var request := w.ctl.log.creates[i].request;
            && 1 <= |request.messages| <= 13
            && request.messages[|request.messages| - 1] == Turn(User, request.text)
            && Paired(request.messages[..|request.messages| - 1])
  {
    hide Paired;
    assert PayloadOk(w.facts, w.ctl.log.creates[i].request);
  }

  lemma PayloadTurn(w: World, i: nat, turn: Turn)
    requires WorldInv(w) && i < |w.ctl.log.creates|
    requires turn in w.ctl.log.creates[i].request.messages && turn.role == Assistant
    ensures Vouched(w.facts, turn.content)
  {
    hide Paired, Vouched;
    var request := w.ctl.log.creates[i].request;
    var context := request.messages[..|request.messages| - 1];
    assert PayloadOk(w.facts, request);
    assert request.messages == context + [Turn(User, request.text)];
    assert turn in context;
  }

  lemma VouchedIsSaid(scope: Scope, events: seq<Event>, text: Text)
    requires Vouched(After(Start(scope), events).facts, text)
    ensures exists runId :: OwnerSaid(scope, events, Fact(runId, text))
  {
    var fact :| fact in After(Start(scope), events).facts && fact.text == text;
    FactsComeFromReplies(Start(scope), events, fact);
    assert OwnerSaid(scope, events, Fact(fact.runId, text));
  }

  // ---------- Sends, retries and confirmations ----------

  /** A send confirms at most one pair. The pair joins that send's text with the
      owner's completed output of the very run that answered its create. */
  lemma EachSendConfirmsOnce(scope: Scope, events: seq<Event>, i: nat, j: nat)
    ensures var log := After(Start(scope), events).ctl.log;
            i < |log.confirmations| ==>
              var pair := log.confirmations[i];
              && (j < |log.confirmations| && log.confirmations[j].serial == pair.serial ==> i == j)
              && pair.serial in log.answers && log.answers[pair.serial] == pair.runId
              && AskedIn(log, pair.serial, pair.question)
              && OwnerSaid(scope, events, Fact(pair.runId, pair.answer))
  {
    hide After;
    EveryRunKeepsInv(scope, events);
    var w := After(Start(scope), events);
    var log := w.ctl.log;
    if i < |log.confirmations| {
      assert ConfirmationOk(log, log.confirmations[i]);
      FactsComeFromReplies(Start(scope), events, Fact(log.confirmations[i].runId, log.confirmations[i].answer));
    }
  }

  /** Two consecutive creates are the same request record, so the same payload
      under the same idempotency key, or the view had settled in between. */
  lemma CreatesAreRetriesOrSettled(scope: Scope, events: seq<Event>, i: nat)
    ensures var creates := After(Start(scope), events).ctl.log.creates;
            i + 1 < |creates| ==>
              creates[i + 1].request == creates[i].request
              || creates[i + 1].phaseBefore in {Idle, Completed, Canceled}
  {
    hide After;
    EveryRunKeepsInv(scope, events);
  }

  /** While a request is active it is that of the newest send that was accepted,
      with its text as asked, and the run in view is the one that answered it. */
  lemma ViewAnswersNewestSend(scope: Scope, events: seq<Event>)
    ensures var c := After(Start(scope), events).ctl;
            c.request.Some? ==>
              && c.request.value.serial + 1 == c.log.sends
              && c.log.creates != [] && c.log.creates[|c.log.creates| - 1].request == c.request.value
              && (c.view.runId.Some? ==>
                    c.request.value.serial in c.log.answers
                    && c.log.answers[c.request.value.serial] == c.view.runId.value)
  {
    hide After;
    EveryRunKeepsInv(scope, events);
  }

  // ---------- Paging ----------

  /** Across all pages run ids are distinct, at most 224 runs are ever shown, and
      no two loads apply with the same cursor. */
  lemma PagesAreAppliedOnce(scope: Scope, events: seq<Event>, i: nat, j: nat)
    ensures var log := After(Start(scope), events).ctl.log;
            && DistinctRuns(log.rows) && |log.rows| <= 224
            && (i < j < |log.applied| ==> log.applied[i] != log.applied[j])
  {
    hide After;
    EveryRunKeepsInv(scope, events);
  }

  /** A live cursor counts exactly the runs shown, is below the view limit and
      stays within the offsets that the owner serves. */
  lemma CursorIsExact(scope: Scope, events: seq<Event>)
    ensures var c := After(Start(scope), events).ctl;
            c.older.Some? ==>
              var cursor := c.older.value;
              && cursor.seen == RunIds(c.log.rows)
              && cursor.total == |cursor.seen| == |c.log.rows| < 200
              && 0 <= cursor.offset <= 10_000
  {
    hide After;
    EveryRunKeepsInv(scope, events);
  }

  /** Loading ends: each page that leaves a cursor raises both its offset and its
      count, which are bounded. A page that is not applied leaves the cursor. */
  lemma OlderPagesProgress(c: Ctl, lease: Lease, cursorId: nat, reply: Reply)
    requires c.older.Some?
    ensures var d := ResumeOlder(c, lease, cursorId, reply).ctl;
            || d == c
            || d.older.None?
            || (&& d.older.value.offset > c.older.value.offset && d.older.value.total > c.older.value.total
                && d.older.value.total < 200 && d.older.value.id == c.cursors)
  {
    hide RunIds, Render;
  }

  // ---------- The transcript is a prefix of the owner's list ----------

  /** The page is a slice of the owner's newest-first list of that session. */
  ghost predicate ServedFrom(list: seq<HistoryRow>, offset: int, page: HistoryPage) {
    && 0 <= offset && offset + |page.rows| <= |list|
    && page.rows == list[offset..offset + |page.rows|]
    && if page.hasMore then page.nextOffset == Some(offset + |page.rows|) else offset + |page.rows| == |list|
  }

  ghost predicate ServedHonestly(w: World, e: Event, lists: Id -> seq<HistoryRow>) {
    e.Answer? && e.ticket in w.pending && e.reply.PageReply? ==>
      var k := w.pending[e.ticket];
      k.AwaitPage? || k.AwaitOlder? ==> ServedFrom(lists(k.sessionId), k.offset, e.reply.page)
  }

  ghost predicate HonestRun(w: World, events: seq<Event>, lists: Id -> seq<HistoryRow>)
    decreases |events|
  {
    events == [] || (ServedHonestly(w, events[0], lists) && HonestRun(Step(w, events[0]), events[1..], lists))
  }

  ghost predicate IsPrefix(rows: seq<HistoryRow>, list: seq<HistoryRow>) {
    rows <= list
  }

  ghost predicate PrefixInv(w: World, lists: Id -> seq<HistoryRow>) {
    && IsPrefix(w.ctl.log.rows, lists(w.ctl.log.session))
    && (w.ctl.older.Some? ==> w.ctl.older.value.offset == |w.ctl.log.rows|)
    && forall t :: t in w.pending && w.pending[t].AwaitPage? ==>
         var k := w.pending[t]; |k.rows| == k.offset && IsPrefix(k.rows, lists(k.sessionId))
  }

  lemma PrefixGrows(rows: seq<HistoryRow>, list: seq<HistoryRow>, page: HistoryPage)
    requires IsPrefix(rows, list) && ServedFrom(list, |rows|, page)
    ensures IsPrefix(rows + page.rows, list)
  {
    assert list[..|rows|] + list[|rows|..|rows| + |page.rows|] == list[..|rows| + |page.rows|];
  }

  /** A step that adds no page request and leaves the session alone. */
  lemma SameHistoryKeepsPrefix(w: World, v: World, lists: Id -> seq<HistoryRow>)
    requires PrefixInv(w, lists) && SameHistory(w.ctl, v.ctl)
    requires forall t :: t in v.pending && v.pending[t].AwaitPage? ==>
               || (t in w.pending && w.pending[t] == v.pending[t])
               || (v.pending[t].rows == [] && v.pending[t].offset == 0)
    ensures PrefixInv(v, lists)
  {
  }

  lemma PageAnswerKeepsPrefix(w: World, ticket: nat, reply: Reply, lists: Id -> seq<HistoryRow>)
    requires WorldInv(w) && PrefixInv(w, lists) && ticket in w.pending && w.pending[ticket].AwaitPage?
    requires ServedHonestly(w, Answer(ticket, reply), lists)
    ensures PrefixInv(Step(w, Answer(ticket, reply)), lists)
  {
    hide WorldInv, Render, VerifiedPairs, Flatten, RunIds, DistinctRuns, RowsAdmissible, RowsFacts, IsPrefix, TakeLast, OpenedView;
    var k := w.pending[ticket];
    var out := Resume(w.ctl, k, reply);
    if reply.PageReply? {
      PrefixGrows(k.rows, lists(k.sessionId), reply.page);
    }
  }

  lemma OlderAnswerKeepsPrefix(w: World, ticket: nat, reply: Reply, lists: Id -> seq<HistoryRow>)
    requires WorldInv(w) && PrefixInv(w, lists) && ticket in w.pending && w.pending[ticket].AwaitOlder?
    requires ServedHonestly(w, Answer(ticket, reply), lists)
    ensures PrefixInv(Step(w, Answer(ticket, reply)), lists)
  {
    hide CoreInv, ResponsibilityInv, LineageInv, TruthInv, Render, RunIds, DistinctRuns, RowsAdmissible, IsPrefix;
    assert PendingOk(w, ticket);
    var k := w.pending[ticket];
    var out := Resume(w.ctl, k, reply);
    if out.ctl != w.ctl {
      PrefixGrows(w.ctl.log.rows, lists(w.ctl.log.session), reply.page);
    }
  }

  lemma StepKeepsPrefix(w: World, e: Event, lists: Id -> seq<HistoryRow>)
    requires WorldInv(w) && PrefixInv(w, lists) && ServedHonestly(w, e, lists)
    ensures PrefixInv(Step(w, e), lists)
  {
    hide CoreInv, LedgerInv, ResponsibilityInv, PrefixInv, Begin, Resume, OnEvent, OnInterrupted,
      Compatible, ContinuationOk, SubmittingCovered, RunningCovered, AnswerCovered, NextOk, SameHistory;
    match e {
      case Call(command) =>
        if Begin(w.ctl, command).Success? {
          BeginKeepsHistory(w.ctl, command);
          BeginAsksFromStart(w.ctl, command);
          SameHistoryKeepsPrefix(w, Step(w, e), lists);
        } else {
          assert Step(w, e) == w;
        }
      case Retargeted(scope) =>
        if Retarget(w.ctl, scope).Success? {
          ResetKeepsHistory(w.ctl, scope);
          SameHistoryKeepsPrefix(w, Step(w, e), lists);
        } else {
          assert Step(w, e) == w;
        }
      case Closed =>
        ResetKeepsHistory(w.ctl, ClientScope("", None));
        SameHistoryKeepsPrefix(w, Step(w, e), lists);
      case Answer(ticket, reply) =>
        if ticket in w.pending {
          var k := w.pending[ticket];
          if k.AwaitPage? {
            PageAnswerKeepsPrefix(w, ticket, reply, lists);
          } else if k.AwaitOlder? {
            OlderAnswerKeepsPrefix(w, ticket, reply, lists);
          } else {
            RunAnswerKeepsHistory(w, ticket, reply);
            SameHistoryKeepsPrefix(w, Step(w, e), lists);
          }
        } else {
          assert Step(w, e) == w;
        }
      case Streamed(index, event) =>
        if index < |w.ctl.subscriptions| {
          StreamKeepsHistory(w, index, event, RunNotCancelable);
          SameHistoryKeepsPrefix(w, Step(w, e), lists);
        } else {
          assert Step(w, e) == w;
        }
      case StreamLost(index, code) =>
        if index < |w.ctl.subscriptions| {
          LostStreamKeepsHistory(w, index, code);
          SameHistoryKeepsPrefix(w, Step(w, e), lists);
        } else {
          assert Step(w, e) == w;
        }
    }
  }

  lemma BeginAsksFromStart(c: Ctl, command: Command)
    requires Begin(c, command).Success?
    ensures var next := Begin(c, command).value.next;
            next.AwaitPage? ==> next.rows == [] && next.offset == 0
  {
    hide BoundedHistory;
  }

  lemma ResetKeepsHistory(c: Ctl, scope: ClientScope)
    ensures Retarget(c, scope).Success? ==> SameHistory(c, Retarget(c, scope).value)
    ensures SameHistory(c, Close(c))
  {
  }

  lemma RunAnswerKeepsHistory(w: World, ticket: nat, reply: Reply)
    requires WorldInv(w) && ticket in w.pending
    requires !w.pending[ticket].AwaitPage? && !w.pending[ticket].AwaitOlder?
    ensures var out := Resume(w.ctl, w.pending[ticket], reply);
            SameHistory(w.ctl, out.ctl) && out.delivery == Nothing
            && (out.next.Some? ==> !out.next.value.AwaitPage?)
  {
    hide CoreInv, LedgerInv, ResponsibilityInv, Settle, Verify, Interrupt, ApplyReconcile, FailReconcile,
      ApplyRefresh, FailRefresh, Subscribe, Detach, ShowCreated, ApplyRecover, AsRun, AnswerCovered, Compatible, Resume,
      SameHistory, ContinuationOk;
    assert PendingOk(w, ticket);
    var k := w.pending[ticket];
    match k {
      case AwaitCreate(_, _) => CreateIsCovered(w.ctl, k, reply);
      case AwaitRecover(_, _) => RecoverIsCovered(w.ctl, k, reply);
      case _ => RunReplyIsCovered(w.ctl, k, reply);
    }
  }

  lemma StreamKeepsHistory(w: World, index: nat, event: StreamEvent, code: Code)
    requires WorldInv(w) && index < |w.ctl.subscriptions|
    ensures var out := OnEvent(w.ctl, index, event);
            SameHistory(w.ctl, out.ctl) && out.delivery == Nothing
            && (out.next.Some? ==> !out.next.value.AwaitPage?)
  {
    hide LedgerInv, RequestsInv, ResponsibilityInv;
    EventIsCovered(w.ctl, index, event);
  }

  lemma LostStreamKeepsHistory(w: World, index: nat, code: Code)
    requires WorldInv(w) && index < |w.ctl.subscriptions|
    ensures var out := OnInterrupted(w.ctl, index, code);
            SameHistory(w.ctl, out.ctl) && out.delivery == Nothing && out.next.None?
  {
    hide LedgerInv, RequestsInv, ResponsibilityInv;
    InterruptionIsCovered(w.ctl, index, code);
  }

  lemma {:induction false} HonestRunKeepsPrefix(w: World, events: seq<Event>, lists: Id -> seq<HistoryRow>)
    requires WorldInv(w) && PrefixInv(w, lists) && HonestRun(w, events, lists)
    ensures WorldInv(After(w, events)) && PrefixInv(After(w, events), lists)
    decreases |events|
  {
    hide WorldInv, PrefixInv, Step, ServedHonestly;
    if events != [] {
      StepKeepsPrefix(w, events[0], lists);
      StepKeepsInv(w, events[0]);
      HonestRunKeepsPrefix(Step(w, events[0]), events[1..], lists);
    }
  }

  /** If the owner's pages are slices of one newest-first list per session, then
      opening a session and prepending older pages, in any order of replies,
      always shows the rendering at once of exactly the rows fetched so far, the
      newest of that list; a live cursor asks for the row after them. */
  lemma TranscriptIsOwnerPrefix(scope: Scope, events: seq<Event>, lists: Id -> seq<HistoryRow>)
    requires HonestRun(Start(scope), events, lists)
    ensures var w := After(Start(scope), events);
            var list, n := lists(w.ctl.log.session), |w.ctl.log.rows|;
            && n <= |list| && w.ctl.log.rows == list[..n] && w.pane == Render(list[..n])
            && (w.ctl.older.Some? ==> w.ctl.older.value.offset == n)
  {
    hide After, WorldInv, PrefixInv, HonestRun;
    StartInv(scope);
    StartIsPrefix(scope, lists);
    HonestRunKeepsPrefix(Start(scope), events, lists);
    PrefixIsRendered(After(Start(scope), events), lists);
  }

  lemma StartIsPrefix(scope: Scope, lists: Id -> seq<HistoryRow>)
    ensures PrefixInv(Start(scope), lists)
  {
  }

  lemma PrefixIsRendered(w: World, lists: Id -> seq<HistoryRow>)
    requires WorldInv(w) && PrefixInv(w, lists)
    ensures var list, n := lists(w.ctl.log.session), |w.ctl.log.rows|;
            && n <= |list| && w.ctl.log.rows == list[..n] && w.pane == Render(list[..n])
            && (w.ctl.older.Some? ==> w.ctl.older.value.offset == n)
  {
    hide CoreInv, LedgerInv, RequestsInv, ResponsibilityInv;
  }

  /** A delivery after which the pane offers nothing older, other than for the
      limit on the view. */
  predicate SaysComplete(delivery: Delivery) {
    match delivery
    case Nothing => false
    case Opened(_, hasOlder, _) => !hasOlder
    case Prepended(_, hasOlder, limitedByView) => !hasOlder && !limitedByView
  }

  /** When a page is the last one, the pane shows the owner's whole list of that
      session, as if it had been fetched and rendered at once. */
  lemma LastPageCompletesTranscript(scope: Scope, events: seq<Event>, lists: Id -> seq<HistoryRow>,
                                    ticket: nat, reply: Reply)
    requires HonestRun(Start(scope), events, lists)
    requires var w := After(Start(scope), events);
             && ticket in w.pending && ServedHonestly(w, Answer(ticket, reply), lists)
             && SaysComplete(Resume(w.ctl, w.pending[ticket], reply).delivery)
    ensures var v := Step(After(Start(scope), events), Answer(ticket, reply));
            v.ctl.log.rows == lists(v.ctl.log.session) && v.pane == Render(lists(v.ctl.log.session))
            && v.ctl.older.None?
  {
    hide After, WorldInv, PrefixInv, HonestRun, Step, ServedHonestly, Resume;
    var w := After(Start(scope), events);
    StartInv(scope);
    StartIsPrefix(scope, lists);
    HonestRunKeepsPrefix(Start(scope), events, lists);
    StepKeepsPrefix(w, Answer(ticket, reply), lists);
    StepKeepsInv(w, Answer(ticket, reply));
    PrefixIsRendered(Step(w, Answer(ticket, reply)), lists);
    LastPageEndsList(w, ticket, reply, lists);
  }

  lemma LastPageEndsList(w: World, ticket: nat, reply: Reply, lists: Id -> seq<HistoryRow>)
    requires WorldInv(w) && PrefixInv(w, lists) && ticket in w.pending
    requires ServedHonestly(w, Answer(ticket, reply), lists)
    requires SaysComplete(Resume(w.ctl, w.pending[ticket], reply).delivery)
    ensures var v := Step(w, Answer(ticket, reply));
            |v.ctl.log.rows| == |lists(v.ctl.log.session)| && v.ctl.older.None?
  {
    hide WorldInv, Resume, IsPrefix;
    var k := w.pending[ticket];
    if k.AwaitPage? {
      LastFirstPage(w.ctl, k, reply);
    } else if k.AwaitOlder? {
      LastOlderPage(w, ticket, reply);
    } else {
      RunAnswerKeepsHistory(w, ticket, reply);
    }
  }

  lemma LastFirstPage(c: Ctl, k: Continuation, reply: Reply)
    requires k.AwaitPage? && SaysComplete(Resume(c, k, reply).delivery)
    ensures reply.PageReply? && !reply.page.hasMore
    ensures var d := Resume(c, k, reply).ctl;
            |d.log.rows| == |k.rows| + |reply.page.rows| && d.log.session == k.sessionId && d.older.None?
  {
    hide VerifiedPairs, Flatten, Render, RunIds, DistinctRuns, RowsAdmissible, OpenedView;
  }

  lemma LastOlderPage(w: World, ticket: nat, reply: Reply)
    requires WorldInv(w) && ticket in w.pending && w.pending[ticket].AwaitOlder?
    requires SaysComplete(Resume(w.ctl, w.pending[ticket], reply).delivery)
    ensures reply.PageReply? && !reply.page.hasMore
    ensures var c, k := w.ctl, w.pending[ticket];
            var d := Resume(c, k, reply).ctl;
            && c.older.Some? && c.older.value.offset == k.offset && c.log.session == k.sessionId
            && |d.log.rows| == |c.log.rows| + |reply.page.rows| && d.log.session == c.log.session && d.older.None?
  {
    hide CoreInv, LineageInv, TruthInv, ResponsibilityInv, Render, RunIds, DistinctRuns, RowsAdmissible;
    assert PendingOk(w, ticket);
  }

  // ---------- Terminal views ----------

  /** Reconnect and reconcile never touch a terminal view. */
  lemma RecoveryRespectsTerminal(c: Ctl, k: Continuation, reply: Reply)
    requires k.AwaitReconnect? || k.AwaitReconcile?
    requires Terminal(c.view.phase)
    ensures Resume(c, k, reply) == Done(c)
  {
  }

  /** The refreshes that move a terminal view back: readbacks that break the
      owner contract. */
  predicate BadReadback(k: Continuation, reply: Reply) {
    && k.AwaitRefresh?
    && if reply.Refused? then
         reply.code.Some? && IsReadbackIssue(reply.code.value)
       else
         var verified := Verify(reply, k.lease.scope, k.runId, Some(k.sessionId));
         verified.Failure? && IsReadbackIssue(verified.error)
  }

  /** A run reply that fails its checks, or that shows the run going on. */
  predicate Unsettling(reply: Reply, scope: Scope, runId: Id, sessionId: Id)
    requires !reply.Refused?
  {
    var verified := Verify(reply, scope, runId, Some(sessionId));
    verified.Failure? || !Terminal(PhaseOf(verified.value.status))
  }

  /** The replies that take a terminal view back: to a control or to the readback
      after it, any failure or going run; to a check, only a broken readback. */
  predicate TakesBack(c: Ctl, k: Continuation, reply: Reply) {
    match k
    case AwaitCancel(lease, runId, sessionId) =>
      if reply.Refused? then reply.code != Some(RunNotCancelable)
      else Unsettling(reply, lease.scope, runId, sessionId)
    case AwaitCheckpoint(lease, _, runId, sessionId) =>
      if reply.Refused? then reply.code !in {Some(RunNotPausable), Some(RunNotResumable)}
      else Unsettling(reply, lease.scope, runId, sessionId)
    case AwaitCancelReadback(lease, runId, sessionId) =>
      reply.Refused? || Unsettling(reply, lease.scope, runId, sessionId)
    case AwaitCheckpointReadback(lease, _, runId, sessionId) =>
      reply.Refused? || Unsettling(reply, lease.scope, runId, sessionId)
    case AwaitRefresh(_, _, _, check) => check == c.refreshEpoch && BadReadback(k, reply)
    case _ => false
  }

  lemma RefreshTakesBack(c: Ctl, k: Continuation, reply: Reply)
    requires ContinuationOk(c, k) && Terminal(c.view.phase) && k.AwaitRefresh?
    ensures !Terminal(Resume(c, k, reply).ctl.view.phase) <==> IsCurrent(c, k) && TakesBack(c, k, reply)
  {
    assert !IsReadbackIssue(RefreshFailed);
    hide ApplyRefresh, Verify, AsRun, IsReadbackIssue, Detach;
    if !reply.Refused? && Verify(reply, k.lease.scope, k.runId, Some(k.sessionId)).Success? {
      RefreshKeepsTerminal(c, k.lease, Verify(reply, k.lease.scope, k.runId, Some(k.sessionId)).value);
    }
  }

  lemma ControlTakesBack(c: Ctl, k: Continuation, reply: Reply)
    requires ContinuationOk(c, k) && Terminal(c.view.phase) && (k.AwaitCancel? || k.AwaitCheckpoint?)
    ensures !Terminal(Resume(c, k, reply).ctl.view.phase) <==> IsCurrent(c, k) && TakesBack(c, k, reply)
  {
    hide Settle, Verify, AsRun;
    SettledPhase(c, k.lease, k.runId, k.sessionId, reply);
    SettledPhase(c.(markersRequired := c.markersRequired + 1), k.lease, k.runId, k.sessionId, reply);
  }

  lemma ReadbackTakesBack(c: Ctl, k: Continuation, reply: Reply)
    requires ContinuationOk(c, k) && Terminal(c.view.phase) && (k.AwaitCancelReadback? || k.AwaitCheckpointReadback?)
    ensures !Terminal(Resume(c, k, reply).ctl.view.phase) <==> IsCurrent(c, k) && TakesBack(c, k, reply)
  {
    hide Settle, Verify, AsRun, ReadbackCode;
    SettledPhase(c, k.lease, k.runId, k.sessionId, reply);
  }

  /** A terminal view is lost exactly to such a reply of the present epoch. */
  lemma TerminalIsLostExactly(c: Ctl, k: Continuation, reply: Reply)
    requires ContinuationOk(c, k) && Terminal(c.view.phase)
    ensures !Terminal(Resume(c, k, reply).ctl.view.phase) <==> IsCurrent(c, k) && TakesBack(c, k, reply)
  {
    hide BoundedHistory, FinishOpen, ApplyOlder;
    if k.AwaitRefresh? {
      RefreshTakesBack(c, k, reply);
    } else if k.AwaitCancel? || k.AwaitCheckpoint? {
      ControlTakesBack(c, k, reply);
    } else if k.AwaitCancelReadback? || k.AwaitCheckpointReadback? {
      ReadbackTakesBack(c, k, reply);
    } else {
      OtherReplyKeepsTerminal(c, k, reply);
    }
  }

  lemma OtherReplyKeepsTerminal(c: Ctl, k: Continuation, reply: Reply)
    requires ContinuationOk(c, k) && Terminal(c.view.phase)
    requires k.AwaitCreate? || k.AwaitReconnect? || k.AwaitReconcile? || k.AwaitPage? || k.AwaitOlder? || k.AwaitRecover?
    ensures Resume(c, k, reply).ctl.view == c.view
  {
    hide Settle, Verify, AsRun, ShowCreated, FinishOpen, ApplyRecover, RunIds, Render;
  }

  lemma SettledPhase(c: Ctl, lease: Lease, runId: Id, sessionId: Id, reply: Reply)
    ensures !reply.Refused? && Verify(reply, lease.scope, runId, Some(sessionId)).Success? ==>
              var run := Verify(reply, lease.scope, runId, Some(sessionId)).value;
              forall withSession :: Settle(c, lease, run, withSession).view.phase == PhaseOf(run.status)
  {
    hide BoundedHistory, Verify;
  }

  lemma RefreshKeepsTerminal(c: Ctl, lease: Lease, run: Run)
    requires Terminal(c.view.phase)
    ensures Terminal(ApplyRefresh(c, lease, run).view.phase)
  {
    hide ShowAndAttach, Confirm, Detach;
    var d := Confirm(c, run);
    ConfirmShows(c, run);
    DetachShows(d);
    ShowAndAttachShows(Detach(d), lease, run, true);
    ShowAndAttachShows(Detach(d).(markersRequired := UNKNOWN_MARKERS), lease, run, true);
  }

  /** Stream callbacks never move a terminal view. */
  lemma StreamRespectsTerminal(c: Ctl, i: nat, event: StreamEvent, code: Code)
    requires i < |c.subscriptions| && Terminal(c.view.phase)
    ensures OnEvent(c, i, event) == Done(c) && OnInterrupted(c, i, code) == Done(c)
  {
  }

  // ---------- Streams under terminal views ----------

  lemma SettleKeepsStreamOfTerminal(c: Ctl, lease: Lease, run: Run, withSession: bool)
    ensures Terminal(PhaseOf(run.status)) ==>
              Settle(c, lease, run, withSession).unsubscribe == c.unsubscribe
    ensures Settle(c, lease, run, withSession).view.phase == PhaseOf(run.status)
  {
    hide BoundedHistory;
  }

  lemma SettlingReplyKeepsStream(c: Ctl, k: Continuation, reply: Reply)
    requires k.AwaitReconnect? || k.AwaitCancel? || k.AwaitCheckpoint? || k.AwaitCancelReadback? || k.AwaitCheckpointReadback?
    requires Terminal(Resume(c, k, reply).ctl.view.phase)
    ensures Resume(c, k, reply).ctl.unsubscribe == c.unsubscribe
  {
    hide Settle, Verify, AsRun, ReadbackCode;
    var sessionId := if k.AwaitReconnect? then c.view.sessionId else Some(k.sessionId);
    if !reply.Refused? && Verify(reply, k.lease.scope, k.runId, sessionId).Success? {
      var run := Verify(reply, k.lease.scope, k.runId, sessionId).value;
      SettleKeepsStreamOfTerminal(c, k.lease, run, true);
      SettleKeepsStreamOfTerminal(c, k.lease, run, false);
      SettleKeepsStreamOfTerminal(c.(markersRequired := c.markersRequired + 1), k.lease, run, true);
    }
  }

  lemma ReconcileKeepsStream(c: Ctl, k: Continuation, reply: Reply)
    requires k.AwaitReconcile?
    ensures Resume(c, k, reply).ctl.unsubscribe == c.unsubscribe
  {
    hide BoundedHistory, AsRun;
  }

  /** A present check whose run reads back as ended: it detaches the stream first. */
  predicate CheckEnds(c: Ctl, k: Continuation, reply: Reply) {
    && k.AwaitRefresh? && !Stale(c, k.lease, k.runId) && k.check == c.refreshEpoch && !reply.Refused?
    && var verified := Verify(reply, k.lease.scope, k.runId, Some(k.sessionId));
       verified.Success? && Terminal(PhaseOf(verified.value.status))
  }

  lemma ApplyRefreshEndsStream(c: Ctl, lease: Lease, run: Run)
    requires Terminal(ApplyRefresh(c, lease, run).view.phase)
    ensures ApplyRefresh(c, lease, run).unsubscribe
            == if Terminal(PhaseOf(run.status)) then None else c.unsubscribe
  {
    hide Confirm, Subscribe;
    ConfirmShows(c, run);
    SubscribeShowsRunning(c, lease, run);
  }

  /** Attaching goes with a running view. */
  lemma SubscribeShowsRunning(c: Ctl, lease: Lease, run: Run)
    ensures forall d: Ctl, withSession :: PhaseOf(run.status) == Running ==>
              ShowAndAttach(d, lease, run, withSession).view.phase == Running
  {
  }

  lemma RefreshEndsStream(c: Ctl, k: Continuation, reply: Reply)
    requires k.AwaitRefresh? && Terminal(Resume(c, k, reply).ctl.view.phase)
    ensures Resume(c, k, reply).ctl.unsubscribe == if CheckEnds(c, k, reply) then None else c.unsubscribe
  {
    hide ApplyRefresh, AsRun, Verify, Detach;
    if !reply.Refused? && Verify(reply, k.lease.scope, k.runId, Some(k.sessionId)).Success? {
      var run := Verify(reply, k.lease.scope, k.runId, Some(k.sessionId)).value;
      if Terminal(ApplyRefresh(c, k.lease, run).view.phase) {
        ApplyRefreshEndsStream(c, k.lease, run);
      }
    }
  }

  lemma CreateReplyHasNoStream(c: Ctl, lease: Lease, request: Request, reply: Reply)
    requires c.unsubscribe == None && Terminal(ResumeCreate(c, lease, request, reply).ctl.view.phase)
    ensures ResumeCreate(c, lease, request, reply).ctl.unsubscribe == None
  {
    hide BoundedHistory, AsRun;
  }

  lemma RecoverReplyHasNoStream(c: Ctl, lease: Lease, runId: Id, reply: Reply)
    requires c.unsubscribe == None && Terminal(ResumeRecover(c, lease, runId, reply).ctl.view.phase)
    ensures ResumeRecover(c, lease, runId, reply).ctl.unsubscribe == None
  {
    hide Verify;
  }

  lemma PageReplyKeepsStream(c: Ctl, k: Continuation, reply: Reply)
    requires k.AwaitPage? || k.AwaitOlder?
    ensures Resume(c, k, reply).ctl.unsubscribe == c.unsubscribe
  {
    hide Render, VerifiedPairs, Flatten, RunIds, RowsAdmissible, OpenedView;
  }

  lemma OpeningReplyHasNoStream(c: Ctl, k: Continuation, reply: Reply)
    requires CoreInv(c) && ContinuationOk(c, k) && Opening(k)
    requires Terminal(Resume(c, k, reply).ctl.view.phase) && Resume(c, k, reply).ctl != c
    ensures c.unsubscribe == None && Resume(c, k, reply).ctl.unsubscribe == None
  {
    hide StreamInv, ResumeCreate, ResumeRecover, ResumePage;
    OpeningHasNoRun(c, k, reply);
    NoRunNoStream(c);
    match k {
      case AwaitCreate(lease, request) => CreateReplyHasNoStream(c, lease, request, reply);
      case AwaitRecover(lease, runId) => RecoverReplyHasNoStream(c, lease, runId, reply);
      case _ => PageReplyKeepsStream(c, k, reply);
    }
  }

  lemma OpeningHasNoRun(c: Ctl, k: Continuation, reply: Reply)
    requires ContinuationOk(c, k) && Opening(k) && Resume(c, k, reply).ctl != c
    ensures c.view.runId.None?
  {
    hide StreamInv;
    if !IsCurrent(c, k) {
      StaleReplyIsInert(c, k, reply);
    }
  }

  /** A reply after which the view is terminal, whether it was before or not, leaves
      a stream attached exactly when one was attached before and the reply is not to
      a present check that reads the run back as ended. */
  lemma TerminalStreamExactly(c: Ctl, k: Continuation, reply: Reply)
    requires CoreInv(c) && ContinuationOk(c, k)
    requires Terminal(Resume(c, k, reply).ctl.view.phase)
    ensures Resume(c, k, reply).ctl.unsubscribe.Some? <==> c.unsubscribe.Some? && !CheckEnds(c, k, reply)
  {
    hide Resume, CoreInv, ContinuationOk;
    if k.AwaitRefresh? {
      RefreshEndsStream(c, k, reply);
    } else if k.AwaitReconcile? {
      ReconcileKeepsStream(c, k, reply);
    } else if Opening(k) {
      if Resume(c, k, reply).ctl != c {
        OpeningReplyHasNoStream(c, k, reply);
      }
    } else if k.AwaitOlder? {
      PageReplyKeepsStream(c, k, reply);
    } else {
      SettlingReplyKeepsStream(c, k, reply);
    }
  }
}
