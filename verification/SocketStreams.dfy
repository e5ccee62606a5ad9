/** One dashboard socket: at most one hub subscription and one run stream, both
    bound to the selected workspace. The streams that the bridge opened keep
    calling back at any time, cancelled or not. */
module SocketStreams {
  import opened Wrappers

  type WorkspaceId = string
  type RunId = string

  /** A stream the bridge opened for this socket. `epoch` is what its callbacks
      captured. */
  datatype Stream = Stream(epoch: nat, workspace: WorkspaceId, runId: RunId, cancelled: bool)

  datatype Message =
    | Projection(stream: nat)
    | StreamFailure(stream: nat)
    | HubEvent(sub: nat)
    | Response

  datatype Socket = Socket(
    epoch: nat, cancel: Option<nat>, selected: Option<WorkspaceId>,
    activeSub: Option<nat>, ownSubs: set<nat>,
    hubSubs: map<nat, WorkspaceId>, nextSub: nat,
    streams: seq<Stream>, closed: bool, sent: seq<Message>)

  const Opened := Socket(0, None, None, None, {}, map[], 0, [], false, [])

  // ---------- Frames ----------

  function Send(s: Socket, m: Message): Socket {
    s.(sent := s.sent + [m])
  }

  /** `canonicalEpoch++; canonicalCancel?.(); canonicalCancel = undefined` */
  function DropStream(s: Socket): Socket {
    var c := s.(epoch := s.epoch + 1, cancel := None);
    if s.cancel.Some? && s.cancel.value < |s.streams| then
      c.(streams := s.streams[s.cancel.value := s.streams[s.cancel.value].(cancelled := true)])
    else
      c
  }

  function DropSub(s: Socket): Socket {
    if s.activeSub.None? then s
    else s.(hubSubs := s.hubSubs - {s.activeSub.value}, ownSubs := s.ownSubs - {s.activeSub.value}, activeSub := None)
  }

  /** `valid` sums up the bridge being configured, the browser being allowed and
      the shape of the frame. */
  function RunSubscribe(s: Socket, valid: bool, workspace: WorkspaceId, runId: RunId): Socket {
    var d := DropStream(s);
    if !valid then
      Send(d, Response)
    else
      DropSub(d).(selected := Some(workspace), cancel := Some(|d.streams|),
                  streams := d.streams + [Stream(d.epoch, workspace, runId, false)])
  }

  function RunUnsubscribe(s: Socket): Socket {
    Send(DropStream(s), Response)
  }

  function HubSubscribe(s: Socket, valid: bool, workspace: WorkspaceId): Socket {
    if !valid then
      Send(s, Response)
    else
      var d := if s.selected != Some(workspace) then DropStream(s) else s;
      var e := DropSub(d.(selected := Some(workspace)));
      Send(e.(hubSubs := e.hubSubs[e.nextSub := workspace], nextSub := e.nextSub + 1,
              activeSub := Some(e.nextSub), ownSubs := e.ownSubs + {e.nextSub}), Response)
  }

  /** Closing leaves the selection as it was. */
  function Close(s: Socket): Socket {
    var d := DropStream(s);
    d.(hubSubs := d.hubSubs - d.ownSubs, ownSubs := {}, activeSub := None, closed := true)
  }

  // ---------- Callbacks ----------

  predicate Passes(s: Socket, i: nat, allowed: bool) {
    i < |s.streams| && s.streams[i].epoch == s.epoch && !s.closed && allowed
  }

  function FromStream(s: Socket, i: nat, failed: bool, allowed: bool): Socket {
    if Passes(s, i, allowed) then Send(s, if failed then StreamFailure(i) else Projection(i)) else s
  }

  function FromHub(s: Socket, sub: nat): Socket {
    if sub in s.hubSubs then Send(s, HubEvent(sub)) else s
  }

  datatype Event =
    | RunSubscribes(valid: bool, workspace: WorkspaceId, runId: RunId)
    | RunUnsubscribes
    | Subscribes(valid: bool, workspace: WorkspaceId)
    | OtherFrame
    | Streams(stream: nat, failed: bool, allowed: bool)
    | Hub(sub: nat)
    | Closes

  /** No frame is handled once the socket has closed; callbacks may still come. */
  function Step(s: Socket, e: Event): Socket {
    match e
    case Streams(i, failed, allowed) => FromStream(s, i, failed, allowed)
    case Hub(sub) => FromHub(s, sub)
    case _ =>
      if s.closed then s
      else
        match e
        case RunSubscribes(valid, workspace, runId) => RunSubscribe(s, valid, workspace, runId)
        case RunUnsubscribes => RunUnsubscribe(s)
        case Subscribes(valid, workspace) => HubSubscribe(s, valid, workspace)
        case Closes => Close(s)
        case _ => Send(s, Response)
  }

  function After(s: Socket, events: seq<Event>): Socket
    decreases |events|
  {
    if events == [] then s else After(Step(s, events[0]), events[1..])
  }

  // ---------- What every step keeps ----------

  ghost predicate StreamsInv(s: Socket) {
    && (forall i :: 0 <= i < |s.streams| ==> s.streams[i].epoch <= s.epoch)
    && (forall i :: 0 <= i < |s.streams| ==>
          ((s.streams[i].epoch == s.epoch || !s.streams[i].cancelled) <==> s.cancel == Some(i)))
    && (s.cancel.Some? ==> s.cancel.value < |s.streams| && s.selected == Some(s.streams[s.cancel.value].workspace))
    && (s.cancel.Some? ==> s.streams[s.cancel.value].epoch == s.epoch && !s.streams[s.cancel.value].cancelled)
  }

  ghost predicate SubsInv(s: Socket) {
    && s.hubSubs.Keys == s.ownSubs
    && s.ownSubs == (if s.activeSub.Some? then {s.activeSub.value} else {})
    && (s.activeSub.Some? ==> s.activeSub.value < s.nextSub && s.selected == Some(s.hubSubs[s.activeSub.value]))
  }

  ghost predicate Inv(s: Socket) {
    StreamsInv(s) && SubsInv(s) && (s.closed ==> s.cancel == None && s.activeSub == None)
  }

  lemma DropStreamKeeps(s: Socket)
    requires StreamsInv(s)
    ensures StreamsInv(DropStream(s)) && DropStream(s).cancel == None
    ensures forall i :: 0 <= i < |s.streams| ==> DropStream(s).streams[i].epoch < DropStream(s).epoch
    ensures var d := DropStream(s);
            && d.hubSubs == s.hubSubs && d.ownSubs == s.ownSubs && d.activeSub == s.activeSub
            && d.nextSub == s.nextSub && d.selected == s.selected && d.closed == s.closed
  {
  }

  lemma SelectionKeepsStreams(s: Socket, workspace: WorkspaceId)
    requires StreamsInv(s) && (s.selected == Some(workspace) || s.cancel == None)
    ensures StreamsInv(s.(selected := Some(workspace)))
  {
  }

  lemma StreamsInvReads(s: Socket, t: Socket)
    requires StreamsInv(s)
    requires t.epoch == s.epoch && t.streams == s.streams && t.cancel == s.cancel && t.selected == s.selected
    ensures StreamsInv(t)
  {
  }

  lemma NewStreamKeeps(s: Socket, workspace: WorkspaceId, runId: RunId)
    requires StreamsInv(s) && s.cancel == None && forall i :: 0 <= i < |s.streams| ==> s.streams[i].epoch < s.epoch
    ensures StreamsInv(s.(selected := Some(workspace), cancel := Some(|s.streams|),
                          streams := s.streams + [Stream(s.epoch, workspace, runId, false)]))
  {
  }

  lemma StepKeepsInv(s: Socket, e: Event)
    requires Inv(s)
    ensures Inv(Step(s, e))
  {
    DropStreamKeeps(s);
    match e {
      case RunSubscribes(valid, workspace, runId) =>
        hide DropStream, StreamsInv;
        var d := DropStream(s);
        NewStreamKeeps(d, workspace, runId);
        RunSubscribeKeeps(s, valid, workspace, runId);
      case Subscribes(valid, workspace) => HubSubscribeKeeps(s, valid, workspace);
      case _ =>
    }
  }

  lemma RunSubscribeKeeps(s: Socket, valid: bool, workspace: WorkspaceId, runId: RunId)
    requires Inv(s)
    ensures Inv(Step(s, RunSubscribes(valid, workspace, runId)))
  {
    DropStreamKeeps(s);
    NewStreamKeeps(DropStream(s), workspace, runId);
    if !s.closed && valid {
      var v := RunSubscribe(s, valid, workspace, runId);
      assert v.hubSubs.Keys == {};
    }
  }

  lemma HubSubscribeKeeps(s: Socket, valid: bool, workspace: WorkspaceId)
    requires Inv(s)
    ensures Inv(Step(s, Subscribes(valid, workspace)))
  {
    hide StreamsInv, DropStream;
    DropStreamKeeps(s);
    var v := Step(s, Subscribes(valid, workspace));
    if s.closed || !valid {
      StreamsInvReads(s, v);
    } else {
      var d := if s.selected != Some(workspace) then DropStream(s) else s;
      SelectionKeepsStreams(d, workspace);
      StreamsInvReads(d.(selected := Some(workspace)), v);
      assert v.hubSubs.Keys == {s.nextSub};
    }
  }

  lemma {:induction false} AfterKeepsInv(s: Socket, events: seq<Event>)
    requires Inv(s)
    ensures Inv(After(s, events))
    decreases |events|
  {
    hide Inv, Step;
    if events != [] {
      StepKeepsInv(s, events[0]);
      AfterKeepsInv(Step(s, events[0]), events[1..]);
    }
  }

  // ---------- Theorems over every run ----------

  /** The socket owns one hub subscription at most, and it is for the selected
      workspace. */
  lemma OneHubSubscription(events: seq<Event>, a: nat, b: nat)
    requires var s := After(Opened, events); a in s.hubSubs && b in s.hubSubs
    ensures var s := After(Opened, events); a == b && s.selected == Some(s.hubSubs[a]) && !s.closed
  {
    AfterKeepsInv(Opened, events);
    var s := After(Opened, events);
    assert a in s.hubSubs.Keys && b in s.hubSubs.Keys;
  }

  /** All streams but one at most are cancelled, and that one is current and runs
      in the selected workspace. */
  lemma OneLiveStream(events: seq<Event>, i: nat)
    requires i < |After(Opened, events).streams|
    ensures var s := After(Opened, events);
            && (!s.streams[i].cancelled <==> s.cancel == Some(i))
            && (s.streams[i].epoch == s.epoch <==> s.cancel == Some(i))
            && (s.cancel == Some(i) ==> s.selected == Some(s.streams[i].workspace) && !s.closed)
  {
    AfterKeepsInv(Opened, events);
  }

  /** What a callback sends, it sends for the stream that is current and not
      cancelled, in the workspace selected at that moment. A superseded stream
      sends nothing, whatever it is called with. */
  lemma SupersededStreamIsSilent(events: seq<Event>, i: nat, failed: bool, allowed: bool)
    ensures var s := After(Opened, events);
            var t := Step(s, Streams(i, failed, allowed));
            && (t != s <==> allowed && s.cancel == Some(i) && i < |s.streams|)
            && (t != s ==> !s.streams[i].cancelled && s.selected == Some(s.streams[i].workspace)
                           && t == Send(s, if failed then StreamFailure(i) else Projection(i)))
  {
    hide After;
    AfterKeepsInv(Opened, events);
    var s := After(Opened, events);
    if Passes(s, i, allowed) {
      assert Send(s, if failed then StreamFailure(i) else Projection(i)).sent != s.sent;
    }
  }

  lemma {:induction false} ClosedStaysClosed(s: Socket, events: seq<Event>)
    requires Inv(s) && s.closed
    ensures After(s, events) == s
    decreases |events|
  {
    if events != [] {
      ClosedStepIsInert(s, events[0]);
      ClosedStaysClosed(s, events[1..]);
    }
  }

  lemma ClosedStepIsInert(s: Socket, e: Event)
    requires Inv(s) && s.closed
    ensures Step(s, e) == s
  {
    match e {
      case Hub(sub) => assert sub !in s.hubSubs.Keys;
      case _ =>
    }
  }

  /** After the close nothing remains: no subscription, no live stream, and no later
      event changes or sends anything. */
  lemma ClosedSocketIsSilent(before: seq<Event>, later: seq<Event>)
    ensures var s := After(Opened, before + [Closes] + later);
            && s == After(Opened, before + [Closes])
            && s.closed && s.hubSubs == map[] && s.cancel == None
            && forall i :: 0 <= i < |s.streams| ==> s.streams[i].cancelled
  {
    AfterAppend(Opened, before, [Closes]);
    AfterAppend(Opened, before + [Closes], later);
    AfterKeepsInv(Opened, before);
    AfterKeepsInv(Opened, before + [Closes]);
    var s := After(Opened, before + [Closes]);
    assert [Closes][1..] == [];
    assert s == Step(After(Opened, before), Closes);
    assert s.closed;
    ClosedStaysClosed(s, later);
    assert s.hubSubs.Keys == {};
  }

  lemma {:induction false} AfterAppend(s: Socket, a: seq<Event>, b: seq<Event>)
    ensures After(s, a + b) == After(After(s, a), b)
    decreases |a|
  {
    if a == [] {
      assert a + b == b;
    } else {
      AfterAppend(Step(s, a[0]), a[1..], b);
      assert (a + b)[1..] == a[1..] + b;
    }
  }

  // ---------- What the frames so far amount to ----------

  /** Frame j opened this stream, and no later frame replaced or dropped it. */
  ghost predicate Streaming(events: seq<Event>, j: nat, workspace: WorkspaceId, runId: RunId) {
    && j < |events| && events[j] == RunSubscribes(true, workspace, runId) && Closes !in events
    && forall n :: j < n < |events| ==>
         && !events[n].RunSubscribes? && !events[n].RunUnsubscribes?
         && !(events[n].Subscribes? && events[n].valid && events[n].workspace != workspace)
  }

  /** Frame j subscribed to the workspace, and no later frame replaced or dropped it. */
  ghost predicate Listening(events: seq<Event>, j: nat, workspace: WorkspaceId) {
    && j < |events| && events[j] == Subscribes(true, workspace) && Closes !in events
    && forall n :: j < n < |events| ==>
         !(events[n].Subscribes? && events[n].valid) && !(events[n].RunSubscribes? && events[n].valid)
  }

  ghost predicate IsStream(s: Socket, workspace: WorkspaceId, runId: RunId) {
    && s.cancel.Some? && s.cancel.value < |s.streams|
    && s.streams[s.cancel.value].workspace == workspace && s.streams[s.cancel.value].runId == runId
  }

  ghost predicate IsListener(s: Socket, workspace: WorkspaceId) {
    s.activeSub.Some? && s.activeSub.value in s.hubSubs && s.hubSubs[s.activeSub.value] == workspace
  }

  lemma StreamingLater(events: seq<Event>, e: Event, j: nat, workspace: WorkspaceId, runId: RunId)
    ensures Streaming(events + [e], j, workspace, runId)
            <==> if j == |events| then e == RunSubscribes(true, workspace, runId) && Closes !in events
                 else Streaming(events, j, workspace, runId) && e != Closes && !e.RunSubscribes? && !e.RunUnsubscribes?
                      && !(e.Subscribes? && e.valid && e.workspace != workspace)
  {
    var more := events + [e];
    assert more[|events|] == e;
    assert forall n :: 0 <= n < |events| ==> more[n] == events[n];
  }

  lemma ListeningLater(events: seq<Event>, e: Event, j: nat, workspace: WorkspaceId)
    ensures Listening(events + [e], j, workspace)
            <==> if j == |events| then e == Subscribes(true, workspace) && Closes !in events
                 else Listening(events, j, workspace) && e != Closes
                      && !(e.Subscribes? && e.valid) && !(e.RunSubscribes? && e.valid)
  {
    var more := events + [e];
    assert more[|events|] == e;
    assert forall n :: 0 <= n < |events| ==> more[n] == events[n];
  }

  /** What one event does to the stream. */
  lemma StreamStep(s: Socket, e: Event, workspace: WorkspaceId, runId: RunId)
    requires Inv(s)
    ensures Step(s, e).closed <==> s.closed || e == Closes
    ensures IsStream(Step(s, e), workspace, runId)
            <==> || (!s.closed && e == RunSubscribes(true, workspace, runId))
                 || (IsStream(s, workspace, runId) && e != Closes && !e.RunSubscribes? && !e.RunUnsubscribes?
                     && !(e.Subscribes? && e.valid && e.workspace != workspace))
  {
  }

  /** And to the subscription. */
  lemma ListenerStep(s: Socket, e: Event, workspace: WorkspaceId)
    requires Inv(s)
    ensures IsListener(Step(s, e), workspace)
            <==> || (!s.closed && e == Subscribes(true, workspace))
                 || (IsListener(s, workspace) && e != Closes && !(e.Subscribes? && e.valid) && !(e.RunSubscribes? && e.valid))
  {
  }

  lemma {:induction false} ClosedExactly(events: seq<Event>)
    ensures After(Opened, events).closed <==> Closes in events
    decreases |events|
  {
    hide Inv, Step;
    if events != [] {
      var n := |events| - 1;
      assert events == events[..n] + [events[n]];
      ClosedExactly(events[..n]);
      LastStep(events);
      StreamStep(After(Opened, events[..n]), events[n], "", "");
    }
  }

  lemma LastStep(events: seq<Event>)
    requires events != []
    ensures var n := |events| - 1;
            After(Opened, events) == Step(After(Opened, events[..n]), events[n]) && Inv(After(Opened, events[..n]))
  {
    hide Step, Inv;
    var n := |events| - 1;
    assert events == events[..n] + [events[n]] && [events[n]][1..] == [];
    AfterAppend(Opened, events[..n], [events[n]]);
    assert After(After(Opened, events[..n]), [events[n]]) == After(Step(After(Opened, events[..n]), events[n]), []);
    OpenedInv();
    AfterKeepsInv(Opened, events[..n]);
  }

  lemma OpenedInv()
    ensures Inv(Opened)
  {
  }

  /** In every run the live stream is exactly the one of the last valid run
      subscription that no later run frame, close or subscription to another
      workspace has ended. */
  lemma {:induction false} LiveStreamExactly(events: seq<Event>, workspace: WorkspaceId, runId: RunId)
    ensures IsStream(After(Opened, events), workspace, runId)
            <==> exists j: nat :: Streaming(events, j, workspace, runId)
    decreases |events|
  {
    hide Inv, Step, Streaming;
    if events == [] {
      NothingStreams(workspace, runId);
    } else {
      var n: nat := |events| - 1;
      var before, e := events[..n], events[n];
      assert events == before + [e];
      LiveStreamExactly(before, workspace, runId);
      LastStep(events);
      ClosedExactly(before);
      StreamStep(After(Opened, before), e, workspace, runId);
      StreamingLater(before, e, n, workspace, runId);
      if exists j: nat :: Streaming(before, j, workspace, runId) {
        var j: nat :| Streaming(before, j, workspace, runId);
        StreamingIsFrame(before, j, workspace, runId);
        StreamingLater(before, e, j, workspace, runId);
      }
      if exists j: nat :: Streaming(events, j, workspace, runId) {
        var j: nat :| Streaming(events, j, workspace, runId);
        StreamingLater(before, e, j, workspace, runId);
      }
    }
  }

  lemma NothingStreams(workspace: WorkspaceId, runId: RunId)
    ensures forall j: nat :: !Streaming([], j, workspace, runId) && !Listening([], j, workspace)
  {
  }

  lemma StreamingIsFrame(events: seq<Event>, j: nat, workspace: WorkspaceId, runId: RunId)
    requires Streaming(events, j, workspace, runId)
    ensures j < |events|
  {
  }

  lemma ListeningIsFrame(events: seq<Event>, j: nat, workspace: WorkspaceId)
    requires Listening(events, j, workspace)
    ensures j < |events|
  {
  }

  /** In every run hub events reach the socket exactly through the subscription of
      the last valid subscribe frame that no later valid subscribe or run
      subscription, and no close, has replaced. */
  lemma {:induction false} HubSubscriptionExactly(events: seq<Event>, workspace: WorkspaceId)
    ensures IsListener(After(Opened, events), workspace) <==> exists j: nat :: Listening(events, j, workspace)
    decreases |events|
  {
    hide Inv, Step, Listening;
    if events == [] {
      NothingStreams(workspace, "");
    } else {
      var n: nat := |events| - 1;
      var before, e := events[..n], events[n];
      assert events == before + [e];
      HubSubscriptionExactly(before, workspace);
      LastStep(events);
      ClosedExactly(before);
      ListenerStep(After(Opened, before), e, workspace);
      ListeningLater(before, e, n, workspace);
      if exists j: nat :: Listening(before, j, workspace) {
        var j: nat :| Listening(before, j, workspace);
        ListeningIsFrame(before, j, workspace);
        ListeningLater(before, e, j, workspace);
      }
      if exists j: nat :: Listening(events, j, workspace) {
        var j: nat :| Listening(events, j, workspace);
        ListeningLater(before, e, j, workspace);
      }
    }
  }

  /** A hub event is sent exactly if it comes through that subscription. */
  lemma HubEventsExactly(events: seq<Event>, sub: nat)
    ensures var s := After(Opened, events);
            Step(s, Hub(sub)).sent == if s.activeSub == Some(sub) then s.sent + [HubEvent(sub)] else s.sent
  {
    hide After;
    OpenedInv();
    AfterKeepsInv(Opened, events);
    var s := After(Opened, events);
    assert sub in s.hubSubs <==> sub in s.hubSubs.Keys;
  }
}
