/** The streamed text of one subscription. A reference definition reads the
    accepted events as a list and joins their deltas once; the controller appends
    and clips event by event. */
module DeltaStream {
  import opened Wrappers
  import opened JsText
  import opened ConfirmedHistory
  import opened ConversationTypes
  import opened ConversationRun

  // ---------- Reference definition ----------

  /** The events that pass: of this run and scope, in strictly increasing order,
      with an id that the window does not hold. The window is emptied whenever it
      is full. */
  function Accepted(scope: Scope, runId: Id, last: nat, window: set<Id>, events: seq<StreamEvent>): seq<StreamEvent>
    decreases |events|
  {
    if events == [] then
      []
    else
      var event := events[0];
      if event.scope == scope && event.runId == runId && event.seqNo > last && event.eventId !in window then
        var kept := (if |window| >= SEEN_WINDOW then {} else window) + {event.eventId};
        [event] + Accepted(scope, runId, event.seqNo, kept, events[1..])
      else
        Accepted(scope, runId, last, window, events[1..])
  }

  /** Nothing is heard after the first terminal notice. */
  function UntilTerminal(events: seq<StreamEvent>): seq<StreamEvent> {
    if events == [] then []
    else if events[0].kind == TerminalNotice then [events[0]]
    else [events[0]] + UntilTerminal(events[1..])
  }

  /** All delta text that follows the required number of resume markers. */
  function Deltas(events: seq<StreamEvent>, markersMissing: nat): Text {
    if events == [] then
      []
    else
      var event := events[0];
      if event.kind == RunResumed then
        Deltas(events[1..], if markersMissing == 0 then 0 else markersMissing - 1)
      else if event.kind == AssistantDelta && event.text.Some? && markersMissing == 0 then
        event.text.value + Deltas(events[1..], 0)
      else
        Deltas(events[1..], markersMissing)
  }

  // ---------- The controller, fed one event after the other ----------

  function Feed(c: Ctl, i: nat, events: seq<StreamEvent>): Ctl
    requires i < |c.subscriptions|
    decreases |events|
  {
    if events == [] then
      c
    else
      var d := OnEvent(c, i, events[0]).ctl;
      if i < |d.subscriptions| then Feed(d, i, events[1..]) else d
  }

  function MarkersMissing(c: Ctl, i: nat): nat
    requires i < |c.subscriptions|
  {
    if c.subscriptions[i].markersSeen >= c.markersRequired then 0
    else c.markersRequired - c.subscriptions[i].markersSeen
  }

  /** Subscription i is attached and the marker gate agrees with its count. */
  ghost predicate Listening(c: Ctl, i: nat) {
    && i < |c.subscriptions|
    && Accepts(c, c.subscriptions[i])
    && (c.awaitingMarker <==> MarkersMissing(c, i) > 0)
    && |c.view.output| <= MAX_OUTPUT
  }

  lemma ClipOnceOrTwice(a: Text, b: Text, c: Text)
    ensures Take(Take(a + b, MAX_OUTPUT) + c, MAX_OUTPUT) == Take(a + (b + c), MAX_OUTPUT)
  {
    assert a + b + c == a + (b + c);
  }

  lemma IgnoredEvent(c: Ctl, i: nat, event: StreamEvent)
    requires i < |c.subscriptions|
    requires !Accepts(c, c.subscriptions[i]) || !Fresh(c, c.subscriptions[i], event)
    ensures OnEvent(c, i, event).ctl == c
  {
  }

  lemma {:induction false} DeafAfterTerminal(c: Ctl, i: nat, events: seq<StreamEvent>)
    requires i < |c.subscriptions| && !Accepts(c, c.subscriptions[i])
    ensures Feed(c, i, events) == c
    decreases |events|
  {
    hide Accepts, Fresh, OnEvent;
    if events != [] {
      IgnoredEvent(c, i, events[0]);
      DeafAfterTerminal(c, i, events[1..]);
    }
  }

  /** One accepted event that is not a terminal notice. */
  lemma HeardEvent(c: Ctl, i: nat, event: StreamEvent)
    requires Listening(c, i) && Fresh(c, c.subscriptions[i], event) && event.kind != TerminalNotice
    ensures var d := OnEvent(c, i, event).ctl;
            && Listening(d, i) && d.lastSeq == event.seqNo
            && d.seen == (if |c.seen| >= SEEN_WINDOW then {} else c.seen) + {event.eventId}
            && d.subscriptions[i].lease == c.subscriptions[i].lease && d.subscriptions[i].runId == c.subscriptions[i].runId
            && MarkersMissing(d, i) == (if event.kind == RunResumed && MarkersMissing(c, i) > 0
                                        then MarkersMissing(c, i) - 1 else MarkersMissing(c, i))
            && d.view.output == (if event.kind == AssistantDelta && event.text.Some? && MarkersMissing(c, i) == 0
                                 then Take(c.view.output + event.text.value, MAX_OUTPUT) else c.view.output)
  {
  }

  lemma TerminalEvent(c: Ctl, i: nat, event: StreamEvent)
    requires Listening(c, i) && Fresh(c, c.subscriptions[i], event) && event.kind == TerminalNotice
    ensures var d := OnEvent(c, i, event).ctl;
            && i < |d.subscriptions| && !Accepts(d, d.subscriptions[i])
            && d.view.output == c.view.output
  {
  }

  function ReferenceOutput(c: Ctl, i: nat, events: seq<StreamEvent>): Text
    requires i < |c.subscriptions|
  {
    var sub := c.subscriptions[i];
    Take(c.view.output
         + Deltas(UntilTerminal(Accepted(sub.lease.scope, sub.runId, c.lastSeq, c.seen, events)), MarkersMissing(c, i)),
         MAX_OUTPUT)
  }

  /** For every sequence of events delivered to an attached subscription, the
      output shown is the first 65536 code units of the old output followed by
      all accepted deltas after the required resume markers. */
  lemma {:induction false} StreamedOutputIsJoinedDeltas(c: Ctl, i: nat, events: seq<StreamEvent>)
    requires Listening(c, i)
    ensures Feed(c, i, events).view.output == ReferenceOutput(c, i, events)
    decreases |events|
  {
    hide Listening, OnEvent, MarkersMissing;
    if events == [] {
      ListeningIsAttached(c, i);
      assert c.view.output + [] == c.view.output;
    } else {
      ListeningIsAttached(c, i);
      var event, rest := events[0], events[1..];
      var sub := c.subscriptions[i];
      var d := OnEvent(c, i, event).ctl;
      if !Fresh(c, sub, event) {
        IgnoredEvent(c, i, event);
        StreamedOutputIsJoinedDeltas(c, i, rest);
      } else if event.kind == TerminalNotice {
        TerminalEvent(c, i, event);
        DeafAfterTerminal(d, i, rest);
        assert c.view.output + [] == c.view.output;
        LastNoticeHasNoText(event, MarkersMissing(c, i));
      } else {
        HeardEvent(c, i, event);
        ListeningIsAttached(d, i);
        StreamedOutputIsJoinedDeltas(d, i, rest);
        var heard := UntilTerminal(Accepted(sub.lease.scope, sub.runId, d.lastSeq, d.seen, rest));
        StepDeltas(event, heard, MarkersMissing(c, i));
        if event.kind == AssistantDelta && event.text.Some? && MarkersMissing(c, i) == 0 {
          ClipOnceOrTwice(c.view.output, event.text.value, Deltas(heard, 0));
        }
      }
    }
  }

  lemma ListeningIsAttached(c: Ctl, i: nat)
    requires Listening(c, i)
    ensures i < |c.subscriptions| && Accepts(c, c.subscriptions[i]) && |c.view.output| <= MAX_OUTPUT
  {
  }

  lemma LastNoticeHasNoText(event: StreamEvent, markersMissing: nat)
    requires event.kind == TerminalNotice
    ensures Deltas([event], markersMissing) == []
  {
  }

  lemma StepDeltas(event: StreamEvent, rest: seq<StreamEvent>, markersMissing: nat)
    requires event.kind != TerminalNotice
    ensures var missing := if event.kind == RunResumed && markersMissing > 0 then markersMissing - 1 else markersMissing;
            Deltas([event] + rest, markersMissing) ==
              (if event.kind == AssistantDelta && event.text.Some? && markersMissing == 0 then event.text.value else [])
              + Deltas(rest, missing)
  {
    assert ([event] + rest)[1..] == rest;
  }

  /** A fresh subscription to a run in view is listening, with all required
      markers still missing: nothing replayed before them is shown. */
  lemma NewStreamListens(c: Ctl, lease: Lease, runId: Id)
    requires Valid(c, lease) && c.view.runId == Some(runId) && !Terminal(c.view.phase) && |c.view.output| <= MAX_OUTPUT
    ensures var d := Subscribe(c, lease, runId);
            && d.unsubscribe.Some? && Listening(d, d.unsubscribe.value)
            && MarkersMissing(d, d.unsubscribe.value) == c.markersRequired
            && d.lastSeq == 0 && d.seen == {} && d.view.output == c.view.output
  {
  }

  /** Accepted events come in strictly increasing order. */
  lemma {:induction false} AcceptedIncreases(scope: Scope, runId: Id, last: nat, window: set<Id>,
                                             events: seq<StreamEvent>, i: nat, j: nat)
    requires i < j < |Accepted(scope, runId, last, window, events)|
    ensures var heard := Accepted(scope, runId, last, window, events);
            last < heard[i].seqNo < heard[j].seqNo
    decreases |events|
  {
    var event := events[0];
    if event.scope == scope && event.runId == runId && event.seqNo > last && event.eventId !in window {
      var kept := (if |window| >= SEEN_WINDOW then {} else window) + {event.eventId};
      AcceptedAboveLast(scope, runId, event.seqNo, kept, events[1..], j - 1);
      if i > 0 {
        AcceptedIncreases(scope, runId, event.seqNo, kept, events[1..], i - 1, j - 1);
      }
    } else {
      AcceptedIncreases(scope, runId, last, window, events[1..], i, j);
    }
  }

  lemma {:induction false} AcceptedAboveLast(scope: Scope, runId: Id, last: nat, window: set<Id>, events: seq<StreamEvent>, i: nat)
    requires i < |Accepted(scope, runId, last, window, events)|
    ensures last < Accepted(scope, runId, last, window, events)[i].seqNo
    decreases |events|
  {
    var event := events[0];
    if event.scope == scope && event.runId == runId && event.seqNo > last && event.eventId !in window {
      var kept := (if |window| >= SEEN_WINDOW then {} else window) + {event.eventId};
      if i > 0 {
        AcceptedAboveLast(scope, runId, event.seqNo, kept, events[1..], i - 1);
      }
    } else {
      AcceptedAboveLast(scope, runId, last, window, events[1..], i);
    }
  }
}
