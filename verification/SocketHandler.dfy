/** The socket handler as the imperative code it is: captured variables updated by
    each frame, each method proved against the functions of SocketStreams. */
module SocketHandling {
  import opened Wrappers
  import opened SocketStreams
  import Model = SocketStreams

  class SocketHandler {
    var canonicalEpoch: nat
    var canonicalCancel: Option<nat>
    var selectedWorkspaceScope: Option<WorkspaceId>
    var activeSubId: Option<nat>
    var socketSubIds: set<nat>
    var hubSubs: map<nat, WorkspaceId>
    var nextSub: nat
    var streams: seq<Stream>
    var closed: bool
    ghost var sent: seq<Message>

    ghost function Abs(): Socket
      reads this
    {
      Socket(canonicalEpoch, canonicalCancel, selectedWorkspaceScope, activeSubId, socketSubIds,
             hubSubs, nextSub, streams, closed, sent)
    }

    constructor ()
      ensures Abs() == Opened
    {
      canonicalEpoch, canonicalCancel, selectedWorkspaceScope := 0, None, None;
      activeSubId, socketSubIds, hubSubs, nextSub := None, {}, map[], 0;
      streams, closed, sent := [], false, [];
    }

    method CancelStream()
      modifies this`canonicalEpoch, this`canonicalCancel, this`streams
      ensures Abs() == DropStream(old(Abs()))
    {
      canonicalEpoch := canonicalEpoch + 1;
      if canonicalCancel.Some? && canonicalCancel.value < |streams| {
        streams := streams[canonicalCancel.value := streams[canonicalCancel.value].(cancelled := true)];
      }
      canonicalCancel := None;
    }

    method LeaveHub()
      modifies this`hubSubs, this`socketSubIds, this`activeSubId
      ensures Abs() == DropSub(old(Abs()))
    {
      if activeSubId.Some? {
        hubSubs := hubSubs - {activeSubId.value};
        socketSubIds := socketSubIds - {activeSubId.value};
        activeSubId := None;
      }
    }

    method Respond()
      modifies this`sent
      ensures Abs() == Model.Send(old(Abs()), Response)
    {
      sent := sent + [Response];
    }

    method OnRunSubscribe(valid: bool, workspace: WorkspaceId, runId: RunId)
      requires !closed
      modifies this
      ensures Abs() == RunSubscribe(old(Abs()), valid, workspace, runId)
    {
      hide DropStream, DropSub;
      CancelStream();
      if !valid {
        Respond();
        return;
      }
      ghost var dropped := Abs();
      LeaveHub();
      DropSubKeepsStreams(dropped);
      selectedWorkspaceScope := Some(workspace);
      canonicalCancel := Some(|streams|);
      streams := streams + [Stream(canonicalEpoch, workspace, runId, false)];
    }

    method OnRunUnsubscribe()
      requires !closed
      modifies this
      ensures Abs() == RunUnsubscribe(old(Abs()))
    {
      hide DropStream;
      CancelStream();
      Respond();
    }

    method OnSubscribe(valid: bool, workspace: WorkspaceId)
      requires !closed
      modifies this
      ensures Abs() == HubSubscribe(old(Abs()), valid, workspace)
    {
      hide DropStream, DropSub;
      if !valid {
        Respond();
        return;
      }
      if selectedWorkspaceScope != Some(workspace) {
        CancelStream();
      }
      selectedWorkspaceScope := Some(workspace);
      LeaveHub();
      JoinHub(workspace);
      Respond();
    }

    method JoinHub(workspace: WorkspaceId)
      modifies this`hubSubs, this`nextSub, this`activeSubId, this`socketSubIds
      ensures var e := old(Abs());
              Abs() == e.(hubSubs := e.hubSubs[e.nextSub := workspace], nextSub := e.nextSub + 1,
                          activeSub := Some(e.nextSub), ownSubs := e.ownSubs + {e.nextSub})
    {
      hubSubs := hubSubs[nextSub := workspace];
      activeSubId := Some(nextSub);
      socketSubIds := socketSubIds + {nextSub};
      nextSub := nextSub + 1;
    }

    method OnClose()
      requires !closed
      modifies this
      ensures Abs() == Close(old(Abs()))
    {
      hide DropStream;
      CancelStream();
      var left := socketSubIds;
      ghost var joined := hubSubs;
      while left != {}
        invariant left <= socketSubIds
        invariant hubSubs == joined - (socketSubIds - left)
        modifies this`hubSubs
        decreases |left|
      {
        var sub :| sub in left;
        hubSubs := hubSubs - {sub};
        left := left - {sub};
      }
      socketSubIds, activeSubId := {}, None;
      closed := true;
    }

    method OnStream(stream: nat, failed: bool, allowed: bool)
      modifies this`sent
      ensures Abs() == FromStream(old(Abs()), stream, failed, allowed)
    {
      if stream < |streams| && streams[stream].epoch == canonicalEpoch && !closed && allowed {
        sent := sent + [if failed then StreamFailure(stream) else Projection(stream)];
      }
    }
  }

  lemma DropSubKeepsStreams(s: Socket)
    ensures DropSub(s).streams == s.streams && DropSub(s).epoch == s.epoch
  {
  }
}
