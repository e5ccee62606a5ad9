/** The gateway bridge as a machine: requests are cut at every await, and
    credentials, replies, owner decisions, aborts and registry operations arrive
    in any order. `history` lists the registry operations since the bridge
    captured its leases. */
module GatewayBridge {
  import opened Wrappers
  import opened OwnerRegistry
  import Reg = OwnerRegistry

  type RunId = string
  type SessionId = string
  type ToolId = string

  // ---------- Leases ----------

  /** What the host approved and the bridge captured for one system. */
  datatype Grant = Grant(root: Path, generation: nat, allowCancel: bool, allowCheckpoint: bool, asksOwner: bool)

  /** What the environment shows to one synchronous lease check. */
  datatype Look = Look(first: Option<Identity>, second: Option<Identity>,
                       third: Option<Identity>, workspaceThere: bool)

  datatype Guarded = Guarded(passes: bool, looks: seq<Reg.Event>)

  const OPERATOR := "operator"

  /** The lease check: root, generation, and the workspace unless it is the
      operator's own. Each of them resolves the root anew. */
  function Guard(r: Registry, system: SystemId, grant: Grant, workspace: string, look: Look): Guarded {
    var first := DoResolve(system, look.first);
    var second := DoResolve(system, look.second);
    var third := DoResolve(system, look.third);
    if ResolveRoot(r, system, look.first).result != Success(grant.root) then
      Guarded(false, [first])
    else if !CheckLease(r, system, grant.root, grant.generation, look.first, look.second).passes then
      Guarded(false, [first, second])
    else if workspace == OPERATOR then
      Guarded(true, [first, second])
    else
      Guarded(ResolveRoot(After(r, [first, second]), system, look.third).result.Success? && look.workspaceThere,
              [first, second, third])
  }

  // ---------- State ----------

  datatype Control = Cancel | Pause | Resume

  datatype Kind = Reading | Creating | Controlling(control: Control) | Approving

  /** A request under way to the owner. The first GET of a control or an approval
      is its precheck; `Recheck` is the GET after the owner's decision. */
  datatype Call = Get | Recheck(tool: ToolId) | Post

  datatype Stage =
    | AwaitBearer(call: Call)
    | AwaitReply(call: Call)
    | AwaitDecision(tool: ToolId)
    | Finished

  datatype Handle = Handle(system: SystemId, workspace: string, kind: Kind, runId: RunId, sessionId: SessionId,
                           stage: Stage, aborted: bool, expired: bool)

  datatype Status =
    | Queued | Running | Resuming | Paused | PausedRecoveryRequired | PausedNoProgress
    | AwaitingApproval | Other

  /** A reply that the client has accepted as JSON of an owner's answer. */
  datatype Reply =
    | Refused
    | Run(runId: RunId, sessionId: SessionId, inScope: bool, status: Status, pendingTool: Option<ToolId>)
    | Page(more: bool)

  /** What reached a handle, as it arrived, and what left it. An effect or a success
      keeps the length of the registry's history at that moment and what its lease
      check was shown. */
  datatype Entry =
    | Got(handle: nat, reply: Reply)
    | Decided(handle: nat, tool: ToolId, accepted: bool)
    | Expired(handle: nat)
    | Posted(handle: nat, at: nat, look: Look)
    | Answered(handle: nat, at: nat, look: Look)
    | Aborted(handle: nat)

  datatype World = World(registry: Registry, history: seq<Reg.Event>, grants: map<SystemId, Grant>,
                         handles: seq<Handle>, log: seq<Entry>)

  // ---------- Steps ----------

  function Observe(w: World, looks: seq<Reg.Event>): World {
    w.(registry := After(w.registry, looks), history := w.history + looks)
  }

  function Update(w: World, i: nat, h: Handle): World
    requires i < |w.handles|
  {
    w.(handles := w.handles[i := h])
  }

  function Note(w: World, entry: Entry): World {
    w.(log := w.log + [entry])
  }

  function End(w: World, i: nat): World
    requires i < |w.handles|
  {
    Update(w, i, w.handles[i].(stage := Finished))
  }

  /** Start the next request of a handle with a fresh deadline. */
  function Ask(w: World, i: nat, call: Call): World
    requires i < |w.handles|
  {
    Update(w, i, w.handles[i].(stage := AwaitBearer(call), expired := false))
  }

  predicate MayStart(grant: Grant, kind: Kind) {
    match kind
    case Controlling(Cancel) => grant.allowCancel
    case Controlling(_) => grant.allowCheckpoint
    case Approving => grant.asksOwner
    case _ => true
  }

  function Begin(w: World, system: SystemId, workspace: string, kind: Kind, runId: RunId, sessionId: SessionId,
                 look: Look, preAborted: bool): World {
    if system !in w.grants then
      w
    else
      var guarded := Guard(w.registry, system, w.grants[system], workspace, look);
      var seen := Observe(w, guarded.looks);
      if !guarded.passes || preAborted || !MayStart(w.grants[system], kind) then
        seen
      else
        seen.(handles := w.handles + [Handle(system, workspace, kind, runId, sessionId, AwaitBearer(Get), false, false)])
  }

  /** The bearer has been resolved, or not; an effect is dispatched only under a
      lease that is valid at that moment. */
  function Dispatch(w: World, i: nat, resolved: bool, look: Look): World
    requires i < |w.handles| && w.handles[i].system in w.grants
  {
    var h := w.handles[i];
    if !h.stage.AwaitBearer? then
      w
    else if h.aborted || !resolved || h.expired then
      End(w, i)
    else if h.stage.call != Post then
      Update(w, i, h.(stage := AwaitReply(h.stage.call)))
    else
      var guarded := Guard(w.registry, h.system, w.grants[h.system], h.workspace, look);
      var seen := Observe(w, guarded.looks);
      if !guarded.passes then
        End(seen, i)
      else
        Note(Update(seen, i, h.(stage := AwaitReply(Post))), Posted(i, |w.history|, look))
  }

  predicate Controllable(control: Control, status: Status) {
    match control
    case Cancel => status in {Queued, Running, Resuming, Paused, PausedRecoveryRequired, PausedNoProgress}
    case Pause => status in {Queued, Running, Resuming}
    case Resume => status in {Paused, PausedRecoveryRequired, PausedNoProgress}
  }

  /** The lease check after an await: it fails a request that was aborted. */
  function Holds(w: World, i: nat, look: Look): (checked: (World, bool))
    requires i < |w.handles| && w.handles[i].system in w.grants
    ensures checked.0.handles == w.handles
  {
    var h := w.handles[i];
    var guarded := Guard(w.registry, h.system, w.grants[h.system], h.workspace, look);
    (Observe(w, guarded.looks), guarded.passes && !h.aborted)
  }

  function AskIf(w: World, i: nat, look: Look, call: Call): World
    requires i < |w.handles| && w.handles[i].system in w.grants
  {
    var checked := Holds(w, i, look);
    if checked.1 then Ask(checked.0, i, call) else End(checked.0, i)
  }

  function Answer(w: World, i: nat, look: Look): World
    requires i < |w.handles| && w.handles[i].system in w.grants
  {
    var checked := Holds(w, i, look);
    if checked.1 then Note(End(checked.0, i), Answered(i, |w.history|, look)) else End(checked.0, i)
  }

  predicate IsRunOf(reply: Reply, h: Handle) {
    reply.Run? && reply.inScope && (h.kind != Creating ==> reply.runId == h.runId)
  }

  predicate ShowsPending(reply: Reply, h: Handle, tool: ToolId) {
    IsRunOf(reply, h) && reply.sessionId == h.sessionId && reply.status == AwaitingApproval && reply.pendingTool == Some(tool)
  }

  function AfterGet(w: World, i: nat, reply: Reply, look: Look): World
    requires i < |w.handles| && w.handles[i].system in w.grants
  {
    var h := w.handles[i];
    match h.kind
    case Reading =>
      if reply.Page? && reply.more then Ask(w, i, Get)
      else if reply.Run? && !IsRunOf(reply, h) then End(w, i)
      else Answer(w, i, look)
    case Creating =>
      if reply.Page? then Ask(w, i, if reply.more then Get else Post) else End(w, i)
    case Controlling(control) =>
      if IsRunOf(reply, h) && reply.sessionId == h.sessionId && Controllable(control, reply.status)
      then AskIf(w, i, look, Post)
      else End(w, i)
    case Approving =>
      if reply.Run? && reply.pendingTool.Some? && ShowsPending(reply, h, reply.pendingTool.value)
      then Update(w, i, h.(stage := AwaitDecision(reply.pendingTool.value)))
      else End(w, i)
  }

  function Receive(w: World, i: nat, reply: Reply, look: Look): World
    requires i < |w.handles| && w.handles[i].system in w.grants
  {
    if w.handles[i].stage.AwaitReply? then AfterReply(Note(w, Got(i, reply)), i, reply, look) else w
  }

  function AfterReply(w: World, i: nat, reply: Reply, look: Look): World
    requires i < |w.handles| && w.handles[i].system in w.grants && w.handles[i].stage.AwaitReply?
  {
    var h := w.handles[i];
    if h.aborted || h.expired || reply.Refused? then
      End(w, i)
    else
      match h.stage.call
      case Get => AfterGet(w, i, reply, look)
      case Recheck(tool) => if ShowsPending(reply, h, tool) then AskIf(w, i, look, Post) else End(w, i)
      case Post => if IsRunOf(reply, h) then Answer(w, i, look) else End(w, i)
  }

  /** The native owner's decision on an approval. */
  function Decide(w: World, i: nat, accepted: bool, look: Look): World
    requires i < |w.handles| && w.handles[i].system in w.grants
  {
    if w.handles[i].stage.AwaitDecision?
    then AfterDecision(Note(w, Decided(i, w.handles[i].stage.tool, accepted)), i, accepted, look) else w
  }

  function AfterDecision(w: World, i: nat, accepted: bool, look: Look): World
    requires i < |w.handles| && w.handles[i].system in w.grants && w.handles[i].stage.AwaitDecision?
  {
    if accepted then AskIf(w, i, look, Call.Recheck(w.handles[i].stage.tool)) else End(w, i)
  }

  function Abort(w: World, i: nat): World
    requires i < |w.handles|
  {
    if w.handles[i].stage == Finished || w.handles[i].aborted then w
    else Note(Update(w, i, w.handles[i].(aborted := true)), Aborted(i))
  }

  /** Only a request under way has a deadline. */
  function Expire(w: World, i: nat): World
    requires i < |w.handles|
  {
    if w.handles[i].stage.AwaitBearer? || w.handles[i].stage.AwaitReply?
    then Note(Update(w, i, w.handles[i].(expired := true)), Expired(i)) else w
  }

  datatype Event =
    | Owner(e: Reg.Event)
    | Request(system: SystemId, workspace: string, kind: Kind, runId: RunId, sessionId: SessionId, look: Look, preAborted: bool)
    | Bearer(handle: nat, resolved: bool, look: Look)
    | Arrives(handle: nat, reply: Reply, look: Look)
    | Decision(handle: nat, accepted: bool, look: Look)
    | Cancels(handle: nat)
    | Deadline(handle: nat)

  function Step(w: World, e: Event): World {
    match e
    case Owner(change) => Observe(w, [change])
    case Request(system, workspace, kind, runId, sessionId, look, preAborted) =>
      Begin(w, system, workspace, kind, runId, sessionId, look, preAborted)
    case _ =>
      if e.handle >= |w.handles| || w.handles[e.handle].system !in w.grants then w
      else StepHandle(w, e)
  }

  function StepHandle(w: World, e: Event): World
    requires !e.Owner? && !e.Request?
    requires e.handle < |w.handles| && w.handles[e.handle].system in w.grants
  {
    match e
    case Bearer(i, resolved, look) => Dispatch(w, i, resolved, look)
    case Arrives(i, reply, look) => Receive(w, i, reply, look)
    case Decision(i, accepted, look) => Decide(w, i, accepted, look)
    case Cancels(i) => Abort(w, i)
    case Deadline(i) => Expire(w, i)
  }

  function Play(w: World, events: seq<Event>): World
    decreases |events|
  {
    if events == [] then w else Play(Step(w, events[0]), events[1..])
  }

  // ---------- The capture ----------

  datatype Approval = Approval(system: SystemId, first: Option<Identity>, second: Option<Identity>,
                               allowCancel: bool, allowCheckpoint: bool, asksOwner: bool)

  datatype Captured = Captured(registry: Registry, grants: Option<map<SystemId, Grant>>)

  /** The constructor: one approved system after the other, or nothing at all. */
  function Capture(r: Registry, grants: map<SystemId, Grant>, approvals: seq<Approval>): Captured
    decreases |approvals|
  {
    if approvals == [] then
      Captured(r, Some(grants))
    else
      var a := approvals[0];
      if a.system in grants then
        Captured(r, None)
      else
        var resolved := ResolveRoot(r, a.system, a.first);
        if resolved.result.Failure? then
          Captured(resolved.reg, None)
        else
          var leased := BindingGeneration(resolved.reg, a.system, a.second);
          if leased.result.Failure? then
            Captured(leased.reg, None)
          else
            Capture(leased.reg,
                    grants[a.system := Grant(resolved.result.value, leased.result.value,
                                             a.allowCancel, a.allowCheckpoint, a.asksOwner)],
                    approvals[1..])
  }

  ghost predicate Leased(r: Registry, grants: map<SystemId, Grant>) {
    forall id :: id in grants ==>
      id in r.byId && grants[id].root == r.byId[id].root && grants[id].generation == GenerationOf(r, id)
  }

  lemma {:induction false} CaptureLeases(r: Registry, grants: map<SystemId, Grant>, approvals: seq<Approval>)
    requires RegInv(r) && Leased(r, grants) && Capture(r, grants, approvals).grants.Some?
    ensures var captured := Capture(r, grants, approvals);
            RegInv(captured.registry) && Leased(captured.registry, captured.grants.value)
    decreases |approvals|
  {
    hide RegInv;
    if approvals != [] {
      var a := approvals[0];
      var resolved := ResolveRoot(r, a.system, a.first);
      var leased := BindingGeneration(resolved.reg, a.system, a.second);
      Reg.StepKeepsInv(r, DoResolve(a.system, a.first));
      Reg.StepKeepsInv(resolved.reg, DoResolve(a.system, a.second));
      CaptureLeases(leased.reg,
                    grants[a.system := Grant(resolved.result.value, leased.result.value,
                                             a.allowCancel, a.allowCheckpoint, a.asksOwner)],
                    approvals[1..]);
    }
  }

  /** A reading of both looks finds the approved directory of an authorised system. */
  ghost predicate Found(r: Registry, a: Approval) {
    a.system in r.byId && r.byId[a.system].authorized && a.first == a.second == Some(r.byId[a.system].identity)
  }

  ghost predicate NamedOnce(grants: map<SystemId, Grant>, approvals: seq<Approval>) {
    && (forall k :: 0 <= k < |approvals| ==> approvals[k].system !in grants)
    && (forall k, l :: 0 <= k < l < |approvals| ==> approvals[k].system != approvals[l].system)
  }

  /** The grant is the system's root and generation and what the approval allows. */
  ghost predicate GrantsOf(r: Registry, a: Approval, grants: map<SystemId, Grant>) {
    && a.system in r.byId && a.system in grants
    && grants[a.system].root == r.byId[a.system].root && grants[a.system].generation == GenerationOf(r, a.system)
    && grants[a.system].allowCancel == a.allowCancel && grants[a.system].allowCheckpoint == a.allowCheckpoint
    && grants[a.system].asksOwner == a.asksOwner
  }

  /** The capture succeeds exactly if every approved system is named once and found;
      the registry is then as it was. */
  lemma {:induction false} CaptureExactly(r: Registry, grants: map<SystemId, Grant>, approvals: seq<Approval>)
    ensures Capture(r, grants, approvals).grants.Some?
            <==> NamedOnce(grants, approvals) && forall k :: 0 <= k < |approvals| ==> Found(r, approvals[k])
    ensures Capture(r, grants, approvals).grants.Some? ==> Capture(r, grants, approvals).registry == r
    decreases |approvals|
  {
    if approvals != [] {
      var a := approvals[0];
      if a.system !in grants && Found(r, a) {
        var grant := Grant(r.byId[a.system].root, GenerationOf(r, a.system), a.allowCancel, a.allowCheckpoint, a.asksOwner);
        assert Capture(r, grants, approvals) == Capture(r, grants[a.system := grant], approvals[1..]);
        CaptureExactly(r, grants[a.system := grant], approvals[1..]);
        assert forall k :: 0 < k < |approvals| ==> approvals[k] == approvals[1..][k - 1];
        assert forall k :: 0 < k < |approvals| ==> approvals[k] in approvals[1..];
      }
    }
  }

  /** It grants every approved system what its own approval says, keeps what was
      granted before, and grants nothing else. */
  lemma {:induction false} CaptureGrants(r: Registry, grants: map<SystemId, Grant>, approvals: seq<Approval>, id: SystemId)
    requires Capture(r, grants, approvals).grants.Some?
    ensures var captured := Capture(r, grants, approvals).grants.value;
            && (forall k :: 0 <= k < |approvals| ==> GrantsOf(r, approvals[k], captured))
            && (id in grants ==> id in captured && captured[id] == grants[id])
            && (id in captured ==> id in grants || exists k :: 0 <= k < |approvals| && approvals[k].system == id)
    decreases |approvals|
  {
    CaptureExactly(r, grants, approvals);
    if approvals != [] {
      var a := approvals[0];
      assert Found(r, a);
      var grant := Grant(r.byId[a.system].root, GenerationOf(r, a.system), a.allowCancel, a.allowCheckpoint, a.asksOwner);
      var more := grants[a.system := grant];
      assert Capture(r, grants, approvals) == Capture(r, more, approvals[1..]);
      CaptureGrants(r, more, approvals[1..], id);
      CaptureGrants(r, more, approvals[1..], a.system);
      var captured := Capture(r, grants, approvals).grants.value;
      forall k | 0 <= k < |approvals|
        ensures GrantsOf(r, approvals[k], captured)
      {
        if k > 0 {
          assert approvals[k] == approvals[1..][k - 1];
        }
      }
    }
  }

  function Start(registry: Registry, grants: map<SystemId, Grant>): World {
    World(registry, [], grants, [], [])
  }

  // ---------- What every step keeps ----------

  /** The lease check of the handle passes on the registry as it was when its
      history had the length `at`. */
  ghost predicate Honoured(start: Registry, grants: map<SystemId, Grant>, history: seq<Reg.Event>,
                           h: Handle, at: nat, look: Look)
  {
    && at <= |history| && h.system in grants
    && Guard(After(start, history[..at]), h.system, grants[h.system], h.workspace, look).passes
  }

  ghost predicate EffectsHonoured(start: Registry, w: World) {
    forall k :: 0 <= k < |w.log| && (w.log[k].Posted? || w.log[k].Answered?) ==>
      w.log[k].handle < |w.handles|
      && Honoured(start, w.grants, w.history, w.handles[w.log[k].handle], w.log[k].at, w.log[k].look)
  }

  predicate SameSubject(h: Handle, g: Handle) {
    g.system == h.system && g.workspace == h.workspace && g.kind == h.kind
    && g.runId == h.runId && g.sessionId == h.sessionId
  }

  /** A GET showed the run of this request, in its session, awaiting approval of the
      tool call. */
  ghost predicate Showed(log: seq<Entry>, a: nat, i: nat, run: RunId, session: SessionId, tool: ToolId) {
    a < |log| && log[a] == Got(i, Run(run, session, true, AwaitingApproval, Some(tool)))
  }

  /** Between two such GETs the owner accepted that very tool call. */
  ghost predicate Approved(log: seq<Entry>, i: nat, run: RunId, session: SessionId) {
    exists a: nat, b: nat, c: nat, tool: ToolId ::
      && a < b < c && Showed(log, a, i, run, session, tool) && Showed(log, c, i, run, session, tool)
      && log[b] == Decided(i, tool, true)
  }

  /** The owner accepted a tool call that a GET before had shown. */
  ghost predicate Accepted(log: seq<Entry>, i: nat, run: RunId, session: SessionId, tool: ToolId) {
    exists a: nat, b: nat :: a < b < |log| && Showed(log, a, i, run, session, tool) && log[b] == Decided(i, tool, true)
  }

  ghost predicate WasShown(log: seq<Entry>, i: nat, run: RunId, session: SessionId, tool: ToolId) {
    exists a: nat :: Showed(log, a, i, run, session, tool)
  }

  /** The statuses in which the owner's run takes a control. */
  predicate Takes(control: Control, status: Status) {
    status in (match control
               case Cancel => {Queued, Running, Resuming, Paused, PausedRecoveryRequired, PausedNoProgress}
               case Pause => {Queued, Running, Resuming}
               case Resume => {Paused, PausedRecoveryRequired, PausedNoProgress})
  }

  /** A GET showed the run of this request in its session in such a status. */
  ghost predicate Allowed(log: seq<Entry>, i: nat, run: RunId, session: SessionId, control: Control) {
    exists a: nat :: a < |log| && AllowsAt(log[a], i, run, session, control)
  }

  ghost predicate AllowsAt(entry: Entry, i: nat, run: RunId, session: SessionId, control: Control) {
    && entry.Got? && entry.handle == i && entry.reply.Run? && entry.reply.inScope
    && entry.reply.runId == run && entry.reply.sessionId == session
    && Takes(control, entry.reply.status)
  }

  /** What must have arrived before a request of this kind may be posted. */
  ghost predicate Prepared(log: seq<Entry>, i: nat, kind: Kind, run: RunId, session: SessionId) {
    match kind
    case Reading => false
    case Creating => Got(i, Page(false)) in log
    case Controlling(control) => Allowed(log, i, run, session, control)
    case Approving => Approved(log, i, run, session)
  }

  ghost predicate HasPosted(log: seq<Entry>, i: nat) {
    exists k :: 0 <= k < |log| && log[k].Posted? && log[k].handle == i
  }

  ghost predicate HasAnswered(log: seq<Entry>, i: nat) {
    exists k :: 0 <= k < |log| && log[k].Answered? && log[k].handle == i
  }

  /** A reply that a success may report: to a read any but a refusal, a page with
      more to come or another run; to a POST a run in scope, and the run asked for
      unless it was created. */
  predicate Reports(reply: Reply, kind: Kind, run: RunId) {
    match kind
    case Reading => !reply.Refused? && reply != Page(true) && (reply.Run? ==> reply.inScope && reply.runId == run)
    case Creating => reply.Run? && reply.inScope
    case _ => reply.Run? && reply.inScope && reply.runId == run
  }

  /** The last entry is such a reply, and it follows the POST if there had to be one. */
  ghost predicate Reported(log: seq<Entry>, i: nat, kind: Kind, run: RunId) {
    && log != [] && log[|log| - 1].Got? && log[|log| - 1].handle == i && Reports(log[|log| - 1].reply, kind, run)
    && (kind != Reading ==> HasPosted(log, i))
  }

  /** What the stage of a handle says about its past. */
  ghost predicate HandleInv(log: seq<Entry>, grants: map<SystemId, Grant>, i: nat, h: Handle) {
    && h.system in grants && MayStart(grants[h.system], h.kind)
    && (h.aborted <==> Aborted(i) in log)
    && (Expired(i) in log ==> h.expired || h.stage == Finished)
    && (h.stage.AwaitDecision? ==> h.kind == Approving && !HasPosted(log, i) && WasShown(log, i, h.runId, h.sessionId, h.stage.tool)
                                   && !h.expired)
    && (h.stage != Finished ==> !HasAnswered(log, i))
    && (h.stage.AwaitBearer? || h.stage.AwaitReply? ==> CallInv(log, i, h, h.stage.call, h.stage.AwaitBearer?))
  }

  ghost predicate CallInv(log: seq<Entry>, i: nat, h: Handle, call: Call, waiting: bool) {
    && (call.Recheck? ==> h.kind == Approving && Accepted(log, i, h.runId, h.sessionId, call.tool))
    && (call == Post ==> Prepared(log, i, h.kind, h.runId, h.sessionId))
    && (call != Post || waiting ==> !HasPosted(log, i))
    && (call == Post && !waiting ==> HasPosted(log, i))
  }

  ghost predicate HandlesInv(w: World) {
    forall i :: 0 <= i < |w.handles| ==> HandleInv(w.log, w.grants, i, w.handles[i])
  }

  /** What may be appended to the log. */
  ghost predicate EntryInv(log: seq<Entry>, h: Handle, entry: Entry) {
    match entry
    case Posted(i, _, _) =>
      !HasPosted(log, i) && Aborted(i) !in log && Expired(i) !in log && Prepared(log, i, h.kind, h.runId, h.sessionId)
    case Answered(i, _, _) =>
      !HasAnswered(log, i) && Aborted(i) !in log && Expired(i) !in log && Reported(log, i, h.kind, h.runId)
    case _ => true
  }

  ghost predicate LogInv(w: World) {
    forall k :: 0 <= k < |w.log| ==>
      w.log[k].handle < |w.handles| && EntryInv(w.log[..k], w.handles[w.log[k].handle], w.log[k])
  }

  ghost predicate BridgeInv(start: Registry, w: World) {
    && w.registry == After(start, w.history)
    && EffectsHonoured(start, w) && HandlesInv(w) && LogInv(w)
  }

  lemma LogGrows(log: seq<Entry>, entry: Entry, i: nat)
    ensures HasPosted(log + [entry], i) <==> HasPosted(log, i) || (entry.Posted? && entry.handle == i)
    ensures HasAnswered(log + [entry], i) <==> HasAnswered(log, i) || (entry.Answered? && entry.handle == i)
    ensures Aborted(i) in log + [entry] <==> Aborted(i) in log || entry == Aborted(i)
    ensures Expired(i) in log + [entry] <==> Expired(i) in log || entry == Expired(i)
  {
    var grown := log + [entry];
    assert grown[|log|] == entry;
    assert forall k :: 0 <= k < |log| ==> grown[k] == log[k];
    if HasPosted(log, i) {
      var k :| 0 <= k < |log| && log[k].Posted? && log[k].handle == i;
      assert grown[k].Posted?;
    }
    if HasAnswered(log, i) {
      var k :| 0 <= k < |log| && log[k].Answered? && log[k].handle == i;
      assert grown[k].Answered?;
    }
  }

  /** What was shown and decided stays on record. */
  lemma RecordGrows(log: seq<Entry>, entry: Entry, i: nat, run: RunId, session: SessionId)
    ensures forall kind :: Prepared(log, i, kind, run, session) ==> Prepared(log + [entry], i, kind, run, session)
    ensures forall tool :: WasShown(log, i, run, session, tool) ==> WasShown(log + [entry], i, run, session, tool)
    ensures forall tool :: Accepted(log, i, run, session, tool) ==> Accepted(log + [entry], i, run, session, tool)
  {
    var grown := log + [entry];
    assert forall k :: 0 <= k < |log| ==> grown[k] == log[k];
    assert forall a: nat, tool :: Showed(log, a, i, run, session, tool) ==> Showed(grown, a, i, run, session, tool);
    forall tool | Accepted(log, i, run, session, tool)
      ensures Accepted(grown, i, run, session, tool)
    {
      var a: nat, b: nat :| a < b < |log| && Showed(log, a, i, run, session, tool) && log[b] == Decided(i, tool, true);
      assert Showed(grown, a, i, run, session, tool) && grown[b] == Decided(i, tool, true);
    }
    if Approved(log, i, run, session) {
      var a: nat, b: nat, c: nat, tool: ToolId :|
        a < b < c && Showed(log, a, i, run, session, tool) && Showed(log, c, i, run, session, tool)
        && log[b] == Decided(i, tool, true);
      assert Showed(grown, a, i, run, session, tool) && Showed(grown, c, i, run, session, tool)
             && grown[b] == Decided(i, tool, true);
    }
    forall control | Allowed(log, i, run, session, control)
      ensures Allowed(grown, i, run, session, control)
    {
      var a: nat :| a < |log| && AllowsAt(log[a], i, run, session, control);
      assert AllowsAt(grown[a], i, run, session, control);
    }
  }

  lemma OtherHandleInv(log: seq<Entry>, grants: map<SystemId, Grant>, entry: Entry, j: nat, h: Handle)
    requires HandleInv(log, grants, j, h) && entry.handle != j
    ensures HandleInv(log + [entry], grants, j, h)
  {
    hide HasPosted, HasAnswered, Prepared, WasShown, Accepted;
    LogGrows(log, entry, j);
    RecordGrows(log, entry, j, h.runId, h.sessionId);
  }

  /** Change one handle and append at most one entry about it. */
  lemma ChangeKeepsLogs(w: World, v: World, i: nat, entry: Option<Entry>)
    requires HandlesInv(w) && LogInv(w) && i < |w.handles| && |v.handles| == |w.handles|
    requires v.grants == w.grants && v.handles == w.handles[i := v.handles[i]]
    requires SameSubject(w.handles[i], v.handles[i])
    requires v.log == if entry.Some? then w.log + [entry.value] else w.log
    requires entry.Some? ==> entry.value.handle == i && EntryInv(w.log, w.handles[i], entry.value)
    requires HandleInv(v.log, v.grants, i, v.handles[i])
    ensures HandlesInv(v) && LogInv(v)
  {
    hide HandleInv, HasPosted, HasAnswered, Prepared, Reported;
    forall j | 0 <= j < |v.handles|
      ensures HandleInv(v.log, v.grants, j, v.handles[j])
    {
      if j != i && entry.Some? {
        OtherHandleInv(w.log, w.grants, entry.value, j, w.handles[j]);
      }
    }
    forall k | 0 <= k < |v.log|
      ensures v.log[k].handle < |v.handles| && EntryInv(v.log[..k], v.handles[v.log[k].handle], v.log[k])
    {
      if k < |w.log| {
        assert v.log[..k] == w.log[..k];
      } else {
        assert v.log[..k] == w.log;
      }
    }
  }

  /** The registry as it was at any earlier moment stays recorded. */
  lemma HistoryKeepsEffects(start: Registry, w: World, v: World, entry: Option<Entry>)
    requires EffectsHonoured(start, w) && v.grants == w.grants && |v.handles| >= |w.handles|
    requires forall j :: 0 <= j < |w.handles| ==> SameSubject(w.handles[j], v.handles[j])
    requires w.history <= v.history
    requires v.log == if entry.Some? then w.log + [entry.value] else w.log
    requires entry.Some? && (entry.value.Posted? || entry.value.Answered?) ==>
               entry.value.handle < |w.handles|
               && Honoured(start, w.grants, v.history, w.handles[entry.value.handle], entry.value.at, entry.value.look)
    ensures EffectsHonoured(start, v)
  {
    forall k | 0 <= k < |v.log| && (v.log[k].Posted? || v.log[k].Answered?)
      ensures v.log[k].handle < |v.handles|
      ensures Honoured(start, v.grants, v.history, v.handles[v.log[k].handle], v.log[k].at, v.log[k].look)
    {
      if k < |w.log| {
        assert v.log[k] == w.log[k];
        assert w.history[..w.log[k].at] == v.history[..w.log[k].at];
        assert SameSubject(w.handles[w.log[k].handle], v.handles[w.log[k].handle]);
      }
    }
  }

  lemma ObserveFollows(start: Registry, w: World, looks: seq<Reg.Event>)
    requires w.registry == After(start, w.history)
    ensures Observe(w, looks).registry == After(start, Observe(w, looks).history)
  {
    AfterAppend(start, w.history, looks);
  }

  /** A guard that passes honours the lease at this moment. */
  lemma GuardHonours(start: Registry, w: World, i: nat, look: Look, later: seq<Reg.Event>)
    requires w.registry == After(start, w.history) && i < |w.handles| && w.handles[i].system in w.grants
    requires Guard(w.registry, w.handles[i].system, w.grants[w.handles[i].system], w.handles[i].workspace, look).passes
    requires w.history <= later
    ensures Honoured(start, w.grants, later, w.handles[i], |w.history|, look)
  {
    assert later[..|w.history|] == w.history;
  }

  /** One handle moves on, the registry is looked at, and at most one entry about
      the handle is logged. */
  lemma MoveKeepsInv(start: Registry, w: World, v: World, i: nat, looks: seq<Reg.Event>, entry: Option<Entry>)
    requires BridgeInv(start, w) && i < |w.handles| && |v.handles| == |w.handles|
    requires v.registry == After(w.registry, looks) && v.history == w.history + looks
    requires v.grants == w.grants && v.handles == w.handles[i := v.handles[i]]
    requires SameSubject(w.handles[i], v.handles[i])
    requires v.log == if entry.Some? then w.log + [entry.value] else w.log
    requires entry.Some? ==> entry.value.handle == i && EntryInv(w.log, w.handles[i], entry.value)
    requires entry.Some? && (entry.value.Posted? || entry.value.Answered?) ==>
               Honoured(start, w.grants, v.history, w.handles[i], entry.value.at, entry.value.look)
    requires HandleInv(v.log, v.grants, i, v.handles[i])
    ensures BridgeInv(start, v)
  {
    hide HandleInv, EntryInv, HandlesInv, LogInv, EffectsHonoured, Honoured, After;
    ChangeKeepsLogs(w, v, i, entry);
    HistoryKeepsEffects(start, w, v, entry);
    AfterAppend(start, w.history, looks);
  }

  lemma EndKeepsInv(start: Registry, w: World, i: nat, looks: seq<Reg.Event>)
    requires BridgeInv(start, w) && i < |w.handles|
    ensures BridgeInv(start, End(Observe(w, looks), i))
    ensures BridgeInv(start, End(w, i))
  {
    hide LogInv, EffectsHonoured, Honoured, After, HasPosted, HasAnswered, Prepared, WasShown, Accepted, Reported;
    MoveKeepsInv(start, w, End(Observe(w, looks), i), i, looks, None);
    AfterNothing(w.registry);
    MoveKeepsInv(start, w, End(w, i), i, [], None);
  }

  lemma AfterNothing(r: Registry)
    ensures After(r, []) == r
  {
  }

  /** What merely arrives is put on record. */
  lemma NoteKeepsInv(start: Registry, w: World, i: nat, entry: Entry)
    requires BridgeInv(start, w) && i < |w.handles| && entry.handle == i && (entry.Got? || entry.Decided?)
    ensures BridgeInv(start, Note(w, entry))
  {
    hide LogInv, EffectsHonoured, Honoured, After, HasPosted, HasAnswered, Prepared, WasShown, Accepted, Reported;
    var h := w.handles[i];
    AfterNothing(w.registry);
    LogGrows(w.log, entry, i);
    RecordGrows(w.log, entry, i, h.runId, h.sessionId);
    MoveKeepsInv(start, w, Note(w, entry), i, [], Some(entry));
  }

  lemma DispatchKeepsInv(start: Registry, w: World, i: nat, resolved: bool, look: Look)
    requires BridgeInv(start, w) && i < |w.handles| && w.handles[i].system in w.grants
    ensures BridgeInv(start, Dispatch(w, i, resolved, look))
  {
    hide LogInv, EffectsHonoured, Honoured, After, HasPosted, HasAnswered, Prepared, WasShown, Accepted, Reported, Guard;
    var h, v := w.handles[i], Dispatch(w, i, resolved, look);
    if h.stage.AwaitBearer? {
      var guarded := Guard(w.registry, h.system, w.grants[h.system], h.workspace, look);
      EndKeepsInv(start, w, i, guarded.looks);
      if h.aborted || !resolved || h.expired {
      } else if h.stage.call != Post {
        AfterNothing(w.registry);
        MoveKeepsInv(start, w, v, i, [], None);
      } else if guarded.passes {
        var entry := Posted(i, |w.history|, look);
        GuardHonours(start, w, i, look, v.history);
        LogGrows(w.log, entry, i);
        RecordGrows(w.log, entry, i, h.runId, h.sessionId);
        MoveKeepsInv(start, w, v, i, guarded.looks, Some(entry));
      }
    }
  }

  /** A rechecked lease leads to the next request or to the end. */
  lemma AskIfKeepsInv(start: Registry, w: World, i: nat, look: Look, call: Call)
    requires BridgeInv(start, w) && i < |w.handles| && w.handles[i].system in w.grants
    requires w.handles[i].stage != Finished && !w.handles[i].expired && !HasPosted(w.log, i) && call != Get
    requires CallInv(w.log, i, w.handles[i], call, true)
    ensures BridgeInv(start, AskIf(w, i, look, call))
  {
    hide LogInv, EffectsHonoured, Honoured, After, HasPosted, HasAnswered, Prepared, WasShown, Accepted, Reported, Guard;
    var h, v := w.handles[i], AskIf(w, i, look, call);
    var guarded := Guard(w.registry, h.system, w.grants[h.system], h.workspace, look);
    MoveKeepsInv(start, w, v, i, guarded.looks, None);
  }

  lemma AnswerKeepsInv(start: Registry, w: World, i: nat, look: Look)
    requires BridgeInv(start, w) && i < |w.handles| && w.handles[i].system in w.grants
    requires w.handles[i].stage != Finished && !w.handles[i].expired
    requires Reported(w.log, i, w.handles[i].kind, w.handles[i].runId)
    ensures BridgeInv(start, Answer(w, i, look))
  {
    hide LogInv, EffectsHonoured, Honoured, After, HasPosted, HasAnswered, Prepared, WasShown, Accepted, Reported, Guard;
    var h, v := w.handles[i], Answer(w, i, look);
    var guarded := Guard(w.registry, h.system, w.grants[h.system], h.workspace, look);
    EndKeepsInv(start, w, i, guarded.looks);
    if guarded.passes && !h.aborted {
      var entry := Answered(i, |w.history|, look);
      GuardHonours(start, w, i, look, v.history);
      LogGrows(w.log, entry, i);
      MoveKeepsInv(start, w, v, i, guarded.looks, Some(entry));
    }
  }

  lemma AskKeepsInv(start: Registry, w: World, i: nat, call: Call)
    requires BridgeInv(start, w) && i < |w.handles| && w.handles[i].stage == AwaitReply(Get) && !w.handles[i].expired
    requires call == Get || (call == Post && Prepared(w.log, i, w.handles[i].kind, w.handles[i].runId, w.handles[i].sessionId))
    ensures BridgeInv(start, Ask(w, i, call))
  {
    hide LogInv, EffectsHonoured, Honoured, After, HasPosted, HasAnswered, Prepared, WasShown, Accepted, Reported;
    AfterNothing(w.registry);
    MoveKeepsInv(start, w, Ask(w, i, call), i, [], None);
  }

  /** The reply that has just been put on record. */
  ghost predicate JustGot(w: World, i: nat, reply: Reply) {
    w.log != [] && w.log[|w.log| - 1] == Got(i, reply)
  }

  lemma GotPrepares(w: World, i: nat, reply: Reply)
    requires i < |w.handles| && JustGot(w, i, reply)
    ensures var h := w.handles[i];
            && (h.kind == Creating && reply == Page(false) ==> Prepared(w.log, i, h.kind, h.runId, h.sessionId))
            && (h.kind.Controlling? && IsRunOf(reply, h) && reply.sessionId == h.sessionId ==>
                  Controllable(h.kind.control, reply.status) ==> Prepared(w.log, i, h.kind, h.runId, h.sessionId))
            && (forall tool :: h.kind == Approving && ShowsPending(reply, h, tool) ==>
                  Showed(w.log, |w.log| - 1, i, h.runId, h.sessionId, tool))
  {
    var h, last := w.handles[i], |w.log| - 1;
    if h.kind.Controlling? && IsRunOf(reply, h) && reply.sessionId == h.sessionId && Controllable(h.kind.control, reply.status) {
      assert AllowsAt(w.log[last], i, h.runId, h.sessionId, h.kind.control);
    }
  }

  lemma ReceiveGetKeepsInv(start: Registry, w: World, i: nat, reply: Reply, look: Look)
    requires BridgeInv(start, w) && i < |w.handles| && w.handles[i].system in w.grants && JustGot(w, i, reply)
    requires w.handles[i].stage == AwaitReply(Get) && !w.handles[i].expired && !reply.Refused?
    ensures BridgeInv(start, AfterGet(w, i, reply, look))
  {
    hide LogInv, EffectsHonoured, Honoured, After, HasPosted, HasAnswered, Prepared, Accepted, Showed, Guard, AskIf, Answer;
    var h := w.handles[i];
    EndKeepsInv(start, w, i, []);
    GotPrepares(w, i, reply);
    match h.kind {
      case Reading =>
        AskKeepsInv(start, w, i, Get);
        if !(reply.Page? && reply.more) && !(reply.Run? && !IsRunOf(reply, h)) {
          AnswerKeepsInv(start, w, i, look);
        }
      case Creating =>
        AskKeepsInv(start, w, i, Get);
        if reply.Page? && !reply.more {
          assert reply == Page(false);
          AskKeepsInv(start, w, i, Post);
        }
      case Controlling(control) =>
        if IsRunOf(reply, h) && reply.sessionId == h.sessionId && Controllable(control, reply.status) {
          AskIfKeepsInv(start, w, i, look, Post);
        }
      case Approving =>
        if reply.Run? && reply.pendingTool.Some? && ShowsPending(reply, h, reply.pendingTool.value) {
          AfterNothing(w.registry);
          MoveKeepsInv(start, w, AfterGet(w, i, reply, look), i, [], None);
        }
    }
  }

  lemma ShownAgain(log: seq<Entry>, i: nat, run: RunId, session: SessionId, tool: ToolId)
    requires log != [] && Accepted(log[..|log| - 1], i, run, session, tool) && Showed(log, |log| - 1, i, run, session, tool)
    ensures Approved(log, i, run, session)
  {
    var before := log[..|log| - 1];
    var a: nat, b: nat :| a < b < |before| && Showed(before, a, i, run, session, tool) && before[b] == Decided(i, tool, true);
    assert Showed(log, a, i, run, session, tool) && log[b] == Decided(i, tool, true);
  }

  lemma ReceiveKeepsInv(start: Registry, w: World, i: nat, reply: Reply, look: Look)
    requires BridgeInv(start, w) && i < |w.handles| && w.handles[i].system in w.grants
    ensures BridgeInv(start, Receive(w, i, reply, look))
  {
    hide LogInv, EffectsHonoured, Honoured, After, HasPosted, HasAnswered, Prepared, WasShown, Accepted, Reported, Guard,
      AskIf, Answer, IsRunOf, AfterGet, Showed, ShowsPending;
    var h := w.handles[i];
    if h.stage.AwaitReply? {
      var u := Note(w, Got(i, reply));
      NoteKeepsInv(start, w, i, Got(i, reply));
      EndKeepsInv(start, u, i, []);
      if !(h.aborted || h.expired || reply.Refused?) {
        match h.stage.call {
          case Get => ReceiveGetKeepsInv(start, u, i, reply, look);
          case Recheck(tool) => RecheckKeepsInv(start, w, i, tool, reply, look);
          case Post => PostReplyKeepsInv(start, u, i, reply, look);
        }
      }
    }
  }

  lemma RecheckKeepsInv(start: Registry, w: World, i: nat, tool: ToolId, reply: Reply, look: Look)
    requires BridgeInv(start, w) && i < |w.handles| && w.handles[i].system in w.grants
    requires w.handles[i].stage == AwaitReply(Recheck(tool)) && !w.handles[i].expired
    requires BridgeInv(start, Note(w, Got(i, reply)))
    ensures ShowsPending(reply, w.handles[i], tool) ==> BridgeInv(start, AskIf(Note(w, Got(i, reply)), i, look, Post))
  {
    hide BridgeInv, AskIf, Accepted, HasPosted, HasAnswered, ShowsPending;
    var u, h := Note(w, Got(i, reply)), w.handles[i];
    assert u.log[..|w.log|] == w.log;
    HandleOf(start, w, i);
    LogGrows(w.log, Got(i, reply), i);
    if ShowsPending(reply, h, tool) {
      GotPrepares(u, i, reply);
      ShownAgain(u.log, i, h.runId, h.sessionId, tool);
      AskIfKeepsInv(start, u, i, look, Post);
    }
  }

  lemma HandleOf(start: Registry, w: World, i: nat)
    requires BridgeInv(start, w) && i < |w.handles|
    ensures HandleInv(w.log, w.grants, i, w.handles[i])
  {
  }

  lemma PostReplyKeepsInv(start: Registry, w: World, i: nat, reply: Reply, look: Look)
    requires BridgeInv(start, w) && i < |w.handles| && w.handles[i].system in w.grants && JustGot(w, i, reply)
    requires w.handles[i].stage == AwaitReply(Post) && !w.handles[i].expired
    ensures IsRunOf(reply, w.handles[i]) ==> BridgeInv(start, Answer(w, i, look))
  {
    hide BridgeInv, Answer, HasPosted, HasAnswered, Accepted, Allowed, Approved;
    HandleOf(start, w, i);
    if IsRunOf(reply, w.handles[i]) {
      AnswerKeepsInv(start, w, i, look);
    }
  }

  lemma DecideKeepsInv(start: Registry, w: World, i: nat, accepted: bool, look: Look)
    requires BridgeInv(start, w) && i < |w.handles| && w.handles[i].system in w.grants
    ensures BridgeInv(start, Decide(w, i, accepted, look))
  {
    hide LogInv, EffectsHonoured, Honoured, After, HasPosted, HasAnswered, Prepared, Reported, Guard, AskIf, Showed;
    var h := w.handles[i];
    if h.stage.AwaitDecision? {
      var tool := h.stage.tool;
      var entry := Decided(i, tool, accepted);
      var u := Note(w, entry);
      NoteKeepsInv(start, w, i, entry);
      EndKeepsInv(start, u, i, []);
      LogGrows(w.log, entry, i);
      if accepted {
        ShownThenAccepted(w.log, i, h.runId, h.sessionId, tool);
        AskIfKeepsInv(start, u, i, look, Call.Recheck(tool));
      }
    }
  }

  lemma ShownThenAccepted(log: seq<Entry>, i: nat, run: RunId, session: SessionId, tool: ToolId)
    requires WasShown(log, i, run, session, tool)
    ensures Accepted(log + [Decided(i, tool, true)], i, run, session, tool)
  {
    var a: nat :| Showed(log, a, i, run, session, tool);
    var grown := log + [Decided(i, tool, true)];
    assert Showed(grown, a, i, run, session, tool) && grown[|log|] == Decided(i, tool, true);
  }

  lemma AbortKeepsInv(start: Registry, w: World, i: nat)
    requires BridgeInv(start, w) && i < |w.handles|
    ensures BridgeInv(start, Abort(w, i)) && BridgeInv(start, Expire(w, i))
  {
    hide LogInv, EffectsHonoured, Honoured, After, HasPosted, HasAnswered, Prepared, WasShown, Accepted, Reported;
    var h := w.handles[i];
    AfterNothing(w.registry);
    RecordGrows(w.log, Aborted(i), i, h.runId, h.sessionId);
    RecordGrows(w.log, Expired(i), i, h.runId, h.sessionId);
    LogGrows(w.log, Aborted(i), i);
    LogGrows(w.log, Expired(i), i);
    if h.stage.AwaitBearer? || h.stage.AwaitReply? {
      MoveKeepsInv(start, w, Expire(w, i), i, [], Some(Expired(i)));
    }
    if h.stage != Finished && !h.aborted {
      MoveKeepsInv(start, w, Abort(w, i), i, [], Some(Aborted(i)));
    }
  }

  lemma BeginKeepsInv(start: Registry, w: World, system: SystemId, workspace: string, kind: Kind,
                      runId: RunId, sessionId: SessionId, look: Look, preAborted: bool)
    requires BridgeInv(start, w)
    ensures BridgeInv(start, Begin(w, system, workspace, kind, runId, sessionId, look, preAborted))
  {
    hide Guard, After, Honoured;
    if system in w.grants {
      var v := Begin(w, system, workspace, kind, runId, sessionId, look, preAborted);
      var guarded := Guard(w.registry, system, w.grants[system], workspace, look);
      ObserveFollows(start, w, guarded.looks);
      HistoryKeepsEffects(start, w, v, None);
      forall i | 0 <= i < |v.handles|
        ensures HandleInv(v.log, v.grants, i, v.handles[i])
      {
        if i == |w.handles| {
          NewHandleIsUnlogged(w, i);
        }
      }
    }
  }

  lemma NewHandleIsUnlogged(w: World, i: nat)
    requires LogInv(w) && i == |w.handles|
    ensures !HasPosted(w.log, i) && !HasAnswered(w.log, i) && Aborted(i) !in w.log
  {
  }

  lemma OwnerKeepsInv(start: Registry, w: World, change: Reg.Event)
    requires BridgeInv(start, w)
    ensures BridgeInv(start, Observe(w, [change]))
  {
    hide After, Honoured;
    ObserveFollows(start, w, [change]);
    HistoryKeepsEffects(start, w, Observe(w, [change]), None);
  }

  lemma StepKeepsInv(start: Registry, w: World, e: Event)
    requires BridgeInv(start, w)
    ensures BridgeInv(start, Step(w, e))
  {
    hide BridgeInv, Begin, Dispatch, Receive, Decide, Abort, Expire, Observe;
    match e {
      case Owner(change) => OwnerKeepsInv(start, w, change);
      case Request(system, workspace, kind, runId, sessionId, look, preAborted) =>
        BeginKeepsInv(start, w, system, workspace, kind, runId, sessionId, look, preAborted);
      case _ =>
        if e.handle < |w.handles| && w.handles[e.handle].system in w.grants {
          match e {
            case Bearer(i, resolved, look) => DispatchKeepsInv(start, w, i, resolved, look);
            case Arrives(i, reply, look) => ReceiveKeepsInv(start, w, i, reply, look);
            case Decision(i, accepted, look) => DecideKeepsInv(start, w, i, accepted, look);
            case Cancels(i) => AbortKeepsInv(start, w, i);
            case Deadline(i) => AbortKeepsInv(start, w, i);
          }
        }
    }
  }

  lemma {:induction false} PlayKeepsInv(start: Registry, w: World, events: seq<Event>)
    requires BridgeInv(start, w)
    ensures BridgeInv(start, Play(w, events)) && Play(w, events).grants == w.grants
    decreases |events|
  {
    hide BridgeInv;
    if events != [] {
      StepKeepsInv(start, w, events[0]);
      GrantsStay(w, events[0]);
      PlayKeepsInv(start, Step(w, events[0]), events[1..]);
    }
  }

  lemma GrantsStay(w: World, e: Event)
    ensures Step(w, e).grants == w.grants
  {
    hide Guard, After;
  }

  lemma StartInv(registry: Registry, grants: map<SystemId, Grant>)
    ensures BridgeInv(registry, Start(registry, grants))
  {
  }

  // ---------- Theorems over every interleaving ----------

  /** The system's binding in this registry state is the granted one, and what the
      check was shown is the approved directory. */
  ghost predicate Binds(r: Registry, id: SystemId, grant: Grant, look: Look) {
    && id in r.byId && r.byId[id].authorized
    && r.byId[id].root == grant.root && GenerationOf(r, id) == grant.generation
    && look.first == look.second == Some(r.byId[id].identity)
  }

  /** Every POST is dispatched, and every success reply sent, in a registry state
      where root and generation are exactly the captured ones and the directory
      and, but for the operator, the workspace are found in place. This holds for
      every registry and every grant, generation zero included. */
  lemma EffectsKeepTheirLease(registry: Registry, grants: map<SystemId, Grant>, events: seq<Event>, k: nat)
    requires var w := Play(Start(registry, grants), events); k < |w.log| && (w.log[k].Posted? || w.log[k].Answered?)
    ensures var w := Play(Start(registry, grants), events);
            && w.registry == After(registry, w.history)
            && w.log[k].handle < |w.handles| && w.log[k].at <= |w.history|
            && var h, look := w.handles[w.log[k].handle], w.log[k].look;
               && h.system in grants
               && Binds(After(registry, w.history[..w.log[k].at]), h.system, grants[h.system], look)
               && (h.workspace != OPERATOR ==> look.third == look.first && look.workspaceThere)
  {
    hide Play, After, HandleInv, EntryInv, Guard;
    var w := Play(Start(registry, grants), events);
    StartInv(registry, grants);
    PlayKeepsInv(registry, Start(registry, grants), events);
    var h := w.handles[w.log[k].handle];
    assert Honoured(registry, grants, w.history, h, w.log[k].at, w.log[k].look);
    GuardBinds(After(registry, w.history[..w.log[k].at]), h.system, grants[h.system], h.workspace, w.log[k].look);
  }

  lemma GuardBinds(r: Registry, id: SystemId, grant: Grant, workspace: string, look: Look)
    requires Guard(r, id, grant, workspace, look).passes
    ensures Binds(r, id, grant, look)
    ensures CheckLease(r, id, grant.root, grant.generation, look.first, look.second).passes
    ensures workspace != OPERATOR ==> look.third == look.first && look.workspaceThere
  {
    PassingLeaseAgrees(r, id, grant.root, grant.generation, look.first, look.second);
    LooksStay(r, id, look);
  }

  lemma LooksStay(r: Registry, id: SystemId, look: Look)
    requires ResolveRoot(r, id, look.first).result.Success? && look.second == look.first
    ensures After(r, [DoResolve(id, look.first), DoResolve(id, look.second)]) == r
  {
    var a, b := DoResolve(id, look.first), DoResolve(id, look.second);
    assert [a, b][1..] == [b] && [b][1..] == [];
    assert Reg.Step(r, a) == r;
    assert After(r, [b]) == r;
  }

  lemma BindingPasses(r: Registry, id: SystemId, grant: Grant, look: Look)
    requires Binds(r, id, grant, look)
    ensures CheckLease(r, id, grant.root, grant.generation, look.first, look.second).passes
  {
  }

  lemma EffectIsUndisturbed(r: Registry, before: seq<Reg.Event>, id: SystemId, grant: Grant, look: Look)
    requires RegInv(r) && id in r.byId && GenerationOf(r, id) == grant.generation
    requires Binds(After(r, before), id, grant, look)
    ensures grant.generation > 0 ==>
              && Undisturbed(r, before, id)
              && (After(r, before).serial < MAX_SAFE_INTEGER ==> look.first == Some(r.byId[id].identity))
  {
    hide RegInv, After, Undisturbed, CheckLease;
    BindingPasses(After(r, before), id, grant, look);
    if grant.generation > 0 {
      PassingLeaseIsUndisturbed(r, before, id, grant.root, look.first, look.second);
      if After(r, before).serial < MAX_SAFE_INTEGER {
        PassingLeaseKeepsIdentity(r, before, id, grant.root, look.first, look.second);
      }
    }
  }

  /** If the grants agreed with the registry at first, then under a positive
      generation nothing renewed the binding before the effect, and unless the
      generations ran out, the directory in place is the one approved at first. */
  lemma EffectsAreUndisturbed(registry: Registry, grants: map<SystemId, Grant>, events: seq<Event>, k: nat)
    requires RegInv(registry) && Leased(registry, grants)
    requires var w := Play(Start(registry, grants), events); k < |w.log| && (w.log[k].Posted? || w.log[k].Answered?)
    ensures var w := Play(Start(registry, grants), events);
            && w.log[k].handle < |w.handles| && w.log[k].at <= |w.history|
            && var id, look, before := w.handles[w.log[k].handle].system, w.log[k].look, w.history[..w.log[k].at];
               && id in grants && id in registry.byId
               && Binds(After(registry, before), id, grants[id], look)
               && (grants[id].generation > 0 ==>
                     && Undisturbed(registry, before, id)
                     && (After(registry, before).serial < MAX_SAFE_INTEGER ==>
                           look.first == Some(registry.byId[id].identity)))
  {
    hide RegInv, Play, After, Undisturbed, CheckLease;
    EffectsKeepTheirLease(registry, grants, events, k);
    var w := Play(Start(registry, grants), events);
    var id := w.handles[w.log[k].handle].system;
    EffectIsUndisturbed(registry, w.history[..w.log[k].at], id, grants[id], w.log[k].look);
  }

  /** The same from the constructor on, whatever the registry was and whatever
      systems were approved. */
  lemma CapturedLeasesProtectEffects(registry: Registry, approvals: seq<Approval>, events: seq<Event>, k: nat)
    requires RegInv(registry) && Capture(registry, map[], approvals).grants.Some?
    requires var c := Capture(registry, map[], approvals);
             var w := Play(Start(c.registry, c.grants.value), events);
             k < |w.log| && (w.log[k].Posted? || w.log[k].Answered?)
    ensures var c := Capture(registry, map[], approvals);
            var w := Play(Start(c.registry, c.grants.value), events);
            && w.log[k].handle < |w.handles| && w.log[k].at <= |w.history|
            && var id, look, before := w.handles[w.log[k].handle].system, w.log[k].look, w.history[..w.log[k].at];
               && id in c.grants.value && id in c.registry.byId
               && Binds(After(c.registry, before), id, c.grants.value[id], look)
               && (c.grants.value[id].generation > 0 ==>
                     && Undisturbed(c.registry, before, id)
                     && (After(c.registry, before).serial < MAX_SAFE_INTEGER ==>
                           look.first == Some(c.registry.byId[id].identity)))
  {
    hide RegInv, Play, After, Undisturbed, Capture, Binds;
    CaptureLeases(registry, map[], approvals);
    var c := Capture(registry, map[], approvals);
    EffectsAreUndisturbed(c.registry, c.grants.value, events, k);
  }

  /** An approval is posted only if a GET showed its run, in its session and scope,
      awaiting approval of a tool call, then the owner accepted that tool call, and
      then a later GET showed the same run awaiting approval of the same call. */
  lemma ApprovalsAreAdmittedAndPending(registry: Registry, grants: map<SystemId, Grant>, events: seq<Event>, k: nat)
    requires var w := Play(Start(registry, grants), events);
             k < |w.log| && w.log[k].Posted? && w.log[k].handle < |w.handles| && w.handles[w.log[k].handle].kind == Approving
    ensures var w := Play(Start(registry, grants), events);
            var i := w.log[k].handle;
            var h := w.handles[i];
            exists a: nat, b: nat, c: nat, tool: ToolId ::
              && a < b < c < k
              && w.log[a] == Got(i, Run(h.runId, h.sessionId, true, AwaitingApproval, Some(tool)))
              && w.log[b] == Decided(i, tool, true)
              && w.log[c] == Got(i, Run(h.runId, h.sessionId, true, AwaitingApproval, Some(tool)))
  {
    hide Play, HandleInv, EffectsHonoured;
    var w := Play(Start(registry, grants), events);
    StartInv(registry, grants);
    PlayKeepsInv(registry, Start(registry, grants), events);
    var i := w.log[k].handle;
    var h, log := w.handles[i], w.log[..k];
    assert EntryInv(log, h, w.log[k]);
    assert Approved(log, i, h.runId, h.sessionId);
    var a: nat, b: nat, c: nat, tool: ToolId :|
      a < b < c && Showed(log, a, i, h.runId, h.sessionId, tool) && Showed(log, c, i, h.runId, h.sessionId, tool)
      && log[b] == Decided(i, tool, true);
    assert w.log[a] == log[a] && w.log[b] == log[b] && w.log[c] == log[c];
  }

  /** A control is posted only if a GET showed its run, in its session and scope, in
      a status that this control takes. */
  lemma ControlsAreForTheirStatus(registry: Registry, grants: map<SystemId, Grant>, events: seq<Event>, k: nat)
    requires var w := Play(Start(registry, grants), events);
             k < |w.log| && w.log[k].Posted? && w.log[k].handle < |w.handles|
             && w.handles[w.log[k].handle].kind.Controlling?
    ensures var w := Play(Start(registry, grants), events);
            var i := w.log[k].handle;
            var h := w.handles[i];
            exists a: nat, status: Status, tool: Option<ToolId> ::
              && a < k && w.log[a] == Got(i, Run(h.runId, h.sessionId, true, status, tool))
              && (h.kind.control == Cancel ==>
                    status in {Queued, Running, Resuming, Paused, PausedRecoveryRequired, PausedNoProgress})
              && (h.kind.control == Pause ==> status in {Queued, Running, Resuming})
              && (h.kind.control == Resume ==> status in {Paused, PausedRecoveryRequired, PausedNoProgress})
  {
    hide Play, HandleInv, EffectsHonoured;
    var w := Play(Start(registry, grants), events);
    StartInv(registry, grants);
    PlayKeepsInv(registry, Start(registry, grants), events);
    var i := w.log[k].handle;
    var h, log := w.handles[i], w.log[..k];
    assert EntryInv(log, h, w.log[k]);
    assert Allowed(log, i, h.runId, h.sessionId, h.kind.control);
    var a: nat :| a < |log| && AllowsAt(log[a], i, h.runId, h.sessionId, h.kind.control);
    var reply := log[a].reply;
    assert w.log[a] == Got(i, Run(h.runId, h.sessionId, true, reply.status, reply.pendingTool));
  }

  /** A create is posted only after its preflight came to an end, and a success is
      the reply that arrived last: in scope, and of the run asked for. */
  lemma SuccessesReportTheirReply(registry: Registry, grants: map<SystemId, Grant>, events: seq<Event>, k: nat)
    requires var w := Play(Start(registry, grants), events); k < |w.log| && w.log[k].handle < |w.handles|
    ensures var w := Play(Start(registry, grants), events);
            var i := w.log[k].handle;
            var h := w.handles[i];
            && (w.log[k].Posted? && h.kind == Creating ==> Got(i, Page(false)) in w.log[..k])
            && (w.log[k].Answered? ==>
                  && k > 0 && w.log[k - 1].Got? && w.log[k - 1].handle == i
                  && var reply := w.log[k - 1].reply;
                     && (h.kind == Reading ==>
                           !reply.Refused? && reply != Page(true) && (reply.Run? ==> reply.inScope && reply.runId == h.runId))
                     && (h.kind != Reading ==> reply.Run? && reply.inScope)
                     && (h.kind == Approving || h.kind.Controlling? ==> reply.runId == h.runId))
  {
    hide Play, HandleInv, EffectsHonoured;
    var w := Play(Start(registry, grants), events);
    StartInv(registry, grants);
    PlayKeepsInv(registry, Start(registry, grants), events);
    assert EntryInv(w.log[..k], w.handles[w.log[k].handle], w.log[k]);
  }

  /** A handle posts at most once and answers success at most once; a read never
      posts, a control or an approval only where the grant has it; a success of any
      other method follows its post; and after an abort, or once the deadline of a
      request has passed, the handle neither posts nor answers success. */
  lemma EffectsHappenOnce(registry: Registry, grants: map<SystemId, Grant>, events: seq<Event>, k: nat)
    requires k < |Play(Start(registry, grants), events).log|
    ensures var w := Play(Start(registry, grants), events);
            var i := w.log[k].handle;
            && i < |w.handles|
            && (w.log[k].Posted? || w.log[k].Answered? ==>
                  forall j :: 0 <= j < k ==> w.log[j] != Aborted(i) && w.log[j] != Expired(i))
            && (w.log[k].Posted? ==> w.handles[i].kind != Reading)
            && w.handles[i].system in grants
            && var grant, kind := grants[w.handles[i].system], w.handles[i].kind;
            && (kind == Controlling(Cancel) ==> grant.allowCancel)
            && (kind == Controlling(Pause) || kind == Controlling(Resume) ==> grant.allowCheckpoint)
            && (kind == Approving ==> grant.asksOwner)
            && (w.log[k].Posted? ==> forall j :: 0 <= j < k && w.log[j].Posted? ==> w.log[j].handle != i)
            && (w.log[k].Answered? ==> forall j :: 0 <= j < k && w.log[j].Answered? ==> w.log[j].handle != i)
            && (w.log[k].Answered? && w.handles[i].kind != Reading ==>
                  exists j :: 0 <= j < k && w.log[j].Posted? && w.log[j].handle == i)
  {
    hide Play, EffectsHonoured, Approved;
    var w := Play(Start(registry, grants), events);
    StartInv(registry, grants);
    PlayKeepsInv(registry, Start(registry, grants), events);
    var i := w.log[k].handle;
    var before := w.log[..k];
    assert EntryInv(before, w.handles[i], w.log[k]);
    assert HandleInv(w.log, w.grants, i, w.handles[i]);
    assert forall j :: 0 <= j < k ==> before[j] == w.log[j];
    if w.log[k].Answered? && w.handles[i].kind != Reading {
      assert HasPosted(before, i);
      var j :| 0 <= j < |before| && before[j].Posted? && before[j].handle == i;
      assert w.log[j].Posted? && w.log[j].handle == i;
    }
  }

  // ---------- What goes through ----------

  /** A guard passes exactly on the granted root and generation with the approved
      directory in place, and with the workspace unless it is the operator's own; it
      then leaves the registry alone. */
  lemma GuardExactly(r: Registry, id: SystemId, grant: Grant, workspace: string, look: Look)
    ensures Guard(r, id, grant, workspace, look).passes
            <==> Binds(r, id, grant, look) && (workspace != OPERATOR ==> look.third == look.first && look.workspaceThere)
    ensures Guard(r, id, grant, workspace, look).passes ==> After(r, Guard(r, id, grant, workspace, look).looks) == r
  {
    if Guard(r, id, grant, workspace, look).passes {
      GuardBinds(r, id, grant, workspace, look);
      LooksStay(r, id, look);
      var a, b, c := DoResolve(id, look.first), DoResolve(id, look.second), DoResolve(id, look.third);
      assert [a, b, c] == [a, b] + [c] && [c][1..] == [];
      AfterAppend(r, [a, b], [c]);
      assert After(r, [c]) == Reg.Step(r, c);
    } else if Binds(r, id, grant, look) {
      LooksStay(r, id, look);
    }
  }

  /** What a guard may leave behind: it marks the system as drifted exactly when a look
      that it makes finds something else in place of the approved directory. The second
      look is made only on the granted root, the third only on the granted generation
      and for a workspace that is not the operator's own. */
  lemma GuardMarksExactly(r: Registry, id: SystemId, grant: Grant, workspace: string, look: Look)
    ensures var after := After(r, Guard(r, id, grant, workspace, look).looks);
            if id !in r.byId || !r.byId[id].authorized then
              after == r
            else
              var approved := Some(r.byId[id].identity);
              var onRoot := look.first == approved && r.byId[id].root == grant.root;
              var onLease := onRoot && look.second == approved && GenerationOf(r, id) == grant.generation;
              if look.first != approved || (onRoot && look.second != approved)
                 || (onLease && workspace != OPERATOR && look.third != approved) then
                after == r.(byId := r.byId[id := r.byId[id].(authorized := false, drifted := true)])
              else
                after == r
  {
    var a, b, c := DoResolve(id, look.first), DoResolve(id, look.second), DoResolve(id, look.third);
    PlayLooks(r, a, b, c);
  }

  lemma PlayOne(r: Registry, a: Reg.Event)
    ensures After(r, [a]) == Reg.Step(r, a)
  {
    hide Reg.Step;
    assert [a][1..] == [] && After(Reg.Step(r, a), []) == Reg.Step(r, a);
  }

  lemma PlayLooks(r: Registry, a: Reg.Event, b: Reg.Event, c: Reg.Event)
    ensures After(r, [a]) == Reg.Step(r, a)
    ensures After(r, [a, b]) == Reg.Step(Reg.Step(r, a), b)
    ensures After(r, [a, b, c]) == Reg.Step(Reg.Step(Reg.Step(r, a), b), c)
  {
    hide Reg.Step;
    PlayOne(r, a);
    PlayOne(Reg.Step(r, a), b);
    PlayOne(Reg.Step(Reg.Step(r, a), b), c);
    AfterAppend(r, [a], [b]);
    AfterAppend(r, [a, b], [c]);
    assert [a] + [b] == [a, b] && [a, b] + [c] == [a, b, c];
  }

  /** What a whole request may rely on: the owner's registry holds the lease, and the
      environment shows it. */
  ghost predicate Stands(w: World, system: SystemId, workspace: string, look: Look) {
    && system in w.grants && Binds(w.registry, system, w.grants[system], look)
    && (workspace != OPERATOR ==> look.third == look.first && look.workspaceThere)
  }

  lemma ObserveKeepsStanding(w: World, system: SystemId, workspace: string, look: Look)
    requires Stands(w, system, workspace, look)
    ensures var guarded := Guard(w.registry, system, w.grants[system], workspace, look);
            guarded.passes && Stands(Observe(w, guarded.looks), system, workspace, look)
  {
    hide Guard, Binds;
    GuardExactly(w.registry, system, w.grants[system], workspace, look);
  }

  /** The handle stands, is under way and untouched. */
  ghost predicate Underway(w: World, i: nat, h: Handle, look: Look) {
    i < |w.handles| && w.handles[i] == h && !h.aborted && !h.expired && Stands(w, h.system, h.workspace, look)
  }

  /** A request under way that finds its credential is sent; a POST is recorded. */
  lemma DispatchGoes(w: World, i: nat, h: Handle, look: Look)
    requires Underway(w, i, h, look) && h.stage.AwaitBearer?
    ensures var v := Step(w, Bearer(i, true, look));
            && Underway(v, i, h.(stage := AwaitReply(h.stage.call)), look)
            && v.log == w.log + if h.stage.call == Post then [Posted(i, |w.history|, look)] else []
  {
    hide Guard, Binds;
    ObserveKeepsStanding(w, h.system, h.workspace, look);
  }

  /** A reply that asks for the next request leads to it. */
  lemma ReplyAsks(w: World, i: nat, h: Handle, reply: Reply, call: Call, look: Look)
    requires Underway(w, i, h, look) && h.stage.AwaitReply? && !reply.Refused?
    requires match h.stage.call
             case Get =>
               (match h.kind
                case Reading => reply == Page(true) && call == Get
                case Creating => reply.Page? && call == (if reply.more then Get else Post)
                case Controlling(control) =>
                  call == Post && reply.Run? && reply.inScope && reply.runId == h.runId && reply.sessionId == h.sessionId
                  && Takes(control, reply.status)
                case Approving => false)
             case Recheck(tool) =>
               call == Post && reply == Run(h.runId, h.sessionId, true, AwaitingApproval, Some(tool))
             case Post => false
    ensures var v := Step(w, Arrives(i, reply, look));
            Underway(v, i, h.(stage := AwaitBearer(call)), look) && v.log == w.log + [Got(i, reply)]
  {
    hide Guard, Binds;
    ObserveKeepsStanding(w, h.system, h.workspace, look);
  }

  /** The last reply of a request is answered. */
  lemma ReplyAnswers(w: World, i: nat, h: Handle, reply: Reply, look: Look)
    requires Underway(w, i, h, look) && h.stage.AwaitReply? && Reports(reply, h.kind, h.runId)
    requires if h.kind == Reading then h.stage.call == Get else h.stage.call == Post
    ensures var v := Step(w, Arrives(i, reply, look));
            v.log == w.log + [Got(i, reply), Answered(i, |w.history|, look)] && v.handles[i].stage == Finished
  {
    hide Guard, Binds;
    ObserveKeepsStanding(w, h.system, h.workspace, look);
  }

  lemma ApprovalAsks(w: World, i: nat, h: Handle, tool: ToolId, look: Look)
    requires Underway(w, i, h, look) && h.kind == Approving && h.stage == AwaitReply(Get)
    ensures var reply := Run(h.runId, h.sessionId, true, AwaitingApproval, Some(tool));
            var u := Step(w, Arrives(i, reply, look));
            var v := Step(u, Decision(i, true, look));
            && Underway(v, i, h.(stage := AwaitBearer(Recheck(tool))), look)
            && v.log == w.log + [Got(i, reply), Decided(i, tool, true)]
  {
    hide Guard, Binds;
    ObserveKeepsStanding(w, h.system, h.workspace, look);
  }

  /** A request that its grant allows begins. */
  lemma RequestBegins(w: World, system: SystemId, workspace: string, kind: Kind, runId: RunId, sessionId: SessionId, look: Look)
    requires Stands(w, system, workspace, look)
    requires kind == Controlling(Cancel) ==> w.grants[system].allowCancel
    requires kind == Controlling(Pause) || kind == Controlling(Resume) ==> w.grants[system].allowCheckpoint
    requires kind == Approving ==> w.grants[system].asksOwner
    ensures var v := Step(w, Request(system, workspace, kind, runId, sessionId, look, false));
            && |v.handles| == |w.handles| + 1 && v.log == w.log
            && Underway(v, |w.handles|, Handle(system, workspace, kind, runId, sessionId, AwaitBearer(Get), false, false), look)
  {
    hide Guard, Binds;
    ObserveKeepsStanding(w, system, workspace, look);
  }

  lemma PlayNext(w: World, e: Event, rest: seq<Event>)
    ensures Play(w, [e] + rest) == Play(Step(w, e), rest)
    ensures Play(Step(w, e), []) == Step(w, e)
  {
    assert ([e] + rest)[1..] == rest;
  }

  /** A granted control of a run that its precheck finds, in the session asked for
      and a status it takes, is posted, and the owner's run is answered. */
  lemma ControlsGoThrough(w: World, system: SystemId, workspace: string, control: Control, runId: RunId, sessionId: SessionId,
                          look: Look, found: Reply, done: Reply)
    requires Stands(w, system, workspace, look)
    requires if control == Cancel then w.grants[system].allowCancel else w.grants[system].allowCheckpoint
    requires found.Run? && found.inScope && found.runId == runId && found.sessionId == sessionId
    requires Takes(control, found.status)
    requires done.Run? && done.inScope && done.runId == runId
    ensures var i := |w.handles|;
            var events := [Request(system, workspace, Controlling(control), runId, sessionId, look, false),
                           Bearer(i, true, look), Arrives(i, found, look), Bearer(i, true, look), Arrives(i, done, look)];
            exists at: nat, end: nat ::
              Play(w, events).log
              == w.log + [Got(i, found)] + [Posted(i, at, look)] + [Got(i, done), Answered(i, end, look)]
  {
    hide Step, Stands;
    var i := |w.handles|;
    var h := Handle(system, workspace, Controlling(control), runId, sessionId, AwaitBearer(Get), false, false);
    var e1 := Request(system, workspace, Controlling(control), runId, sessionId, look, false);
    var e2, e3, e5 := Bearer(i, true, look), Arrives(i, found, look), Arrives(i, done, look);
    var w1 := Step(w, e1);
    var w2 := Step(w1, e2);
    var w3 := Step(w2, e3);
    var w4 := Step(w3, e2);
    var w5 := Step(w4, e5);
    RequestBegins(w, system, workspace, Controlling(control), runId, sessionId, look);
    DispatchGoes(w1, i, h, look);
    ReplyAsks(w2, i, h.(stage := AwaitReply(Get)), found, Post, look);
    DispatchGoes(w3, i, h.(stage := AwaitBearer(Post)), look);
    ReplyAnswers(w4, i, h.(stage := AwaitReply(Post)), done, look);
    PlayNext(w, e1, [e2, e3, e2, e5]);
    PlayNext(w1, e2, [e3, e2, e5]);
    PlayNext(w2, e3, [e2, e5]);
    PlayNext(w3, e2, [e5]);
    PlayNext(w4, e5, []);
    assert [e1, e2, e3, e2, e5] == [e1] + [e2, e3, e2, e5] && [e2, e3, e2, e5] == [e2] + [e3, e2, e5]
           && [e3, e2, e5] == [e3] + [e2, e5] && [e2, e5] == [e2] + [e5] && [e5] == [e5] + [];
    assert w5.log == w.log + [] + [Got(i, found)] + [Posted(i, |w3.history|, look)]
                     + [Got(i, done), Answered(i, |w4.history|, look)];
    assert w.log + [] == w.log;
  }

  lemma PlayEight(w: World, e1: Event, e2: Event, e3: Event, e4: Event, e8: Event)
    ensures var w4 := Step(Step(Step(Step(w, e1), e2), e3), e4);
            Play(w, [e1, e2, e3, e4, e2, e3, e2, e8]) == Step(Step(Step(Step(w4, e2), e3), e2), e8)
  {
    hide Step, Play;
    var w2 := Step(Step(w, e1), e2);
    var w4 := Step(Step(w2, e3), e4);
    var w6 := Step(Step(w4, e2), e3);
    PlayNext(w, e1, [e2, e3, e4, e2, e3, e2, e8]);
    PlayNext(Step(w, e1), e2, [e3, e4, e2, e3, e2, e8]);
    PlayNext(w2, e3, [e4, e2, e3, e2, e8]);
    PlayNext(Step(w2, e3), e4, [e2, e3, e2, e8]);
    PlayNext(w4, e2, [e3, e2, e8]);
    PlayNext(Step(w4, e2), e3, [e2, e8]);
    PlayNext(w6, e2, [e8]);
    PlayNext(Step(w6, e2), e8, []);
    assert [e1, e2, e3, e4, e2, e3, e2, e8] == [e1] + [e2, e3, e4, e2, e3, e2, e8]
           && [e2, e3, e4, e2, e3, e2, e8] == [e2] + [e3, e4, e2, e3, e2, e8]
           && [e3, e4, e2, e3, e2, e8] == [e3] + [e4, e2, e3, e2, e8] && [e4, e2, e3, e2, e8] == [e4] + [e2, e3, e2, e8]
           && [e2, e3, e2, e8] == [e2] + [e3, e2, e8] && [e3, e2, e8] == [e3] + [e2, e8]
           && [e2, e8] == [e2] + [e8] && [e8] == [e8] + [];
  }

  /** An approval that the owner may be asked for, shown pending before and after the
      owner accepts it, is posted, and the owner's run is answered. */
  lemma ApprovalsGoThrough(w: World, system: SystemId, workspace: string, runId: RunId, sessionId: SessionId,
                           look: Look, tool: ToolId, done: Reply)
    requires Stands(w, system, workspace, look) && w.grants[system].asksOwner
    requires done.Run? && done.inScope && done.runId == runId
    ensures var i, shown := |w.handles|, Run(runId, sessionId, true, AwaitingApproval, Some(tool));
            var events := [Request(system, workspace, Approving, runId, sessionId, look, false), Bearer(i, true, look),
                           Arrives(i, shown, look), Decision(i, true, look), Bearer(i, true, look),
                           Arrives(i, shown, look), Bearer(i, true, look), Arrives(i, done, look)];
            exists at: nat, end: nat ::
              Play(w, events).log
              == w.log + [Got(i, shown), Decided(i, tool, true)] + [Got(i, shown)] + [Posted(i, at, look)]
                 + [Got(i, done), Answered(i, end, look)]
  {
    hide Step, Stands, Play;
    var i, shown := |w.handles|, Run(runId, sessionId, true, AwaitingApproval, Some(tool));
    var h := Handle(system, workspace, Approving, runId, sessionId, AwaitBearer(Get), false, false);
    var e1 := Request(system, workspace, Approving, runId, sessionId, look, false);
    var e2, e3, e4, e8 := Bearer(i, true, look), Arrives(i, shown, look), Decision(i, true, look), Arrives(i, done, look);
    var w1 := Step(w, e1);
    var w2 := Step(w1, e2);
    var w4 := Step(Step(w2, e3), e4);
    var w5 := Step(w4, e2);
    var w6 := Step(w5, e3);
    var w7 := Step(w6, e2);
    var w8 := Step(w7, e8);
    RequestBegins(w, system, workspace, Approving, runId, sessionId, look);
    DispatchGoes(w1, i, h, look);
    ApprovalAsks(w2, i, h.(stage := AwaitReply(Get)), tool, look);
    DispatchGoes(w4, i, h.(stage := AwaitBearer(Recheck(tool))), look);
    ReplyAsks(w5, i, h.(stage := AwaitReply(Recheck(tool))), shown, Post, look);
    DispatchGoes(w6, i, h.(stage := AwaitBearer(Post)), look);
    ReplyAnswers(w7, i, h.(stage := AwaitReply(Post)), done, look);
    PlayEight(w, e1, e2, e3, e4, e8);
    assert w4.log == w.log + [Got(i, shown), Decided(i, tool, true)];
    assert w8.log == w4.log + [Got(i, shown)] + [Posted(i, |w6.history|, look)]
                     + [Got(i, done), Answered(i, |w7.history|, look)];
  }
}
