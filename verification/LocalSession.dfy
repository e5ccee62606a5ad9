/** The pairing session of the local application. Codes, cookies, leases and
    proposal ids are drawn fresh, so each is named by a number; what the owner
    registry and the clock say at each look is chosen by the environment. A route
    that reads a body is cut at the read. */
module LocalSession {
  import opened Wrappers

  const MAX_PAIR_ATTEMPTS: nat := 5
  const MAX_WORKSPACE_REQUESTS: nat := 5
  const PAIR_TTL: nat := 300_000
  const SESSION_TTL: nat := 28_800_000
  const WORKSPACE_REQUEST_TTL: nat := 90_000

  type WorkspaceId = string

  const OPERATOR: WorkspaceId := "operator"

  /** The directory of a workspace; the operator's own workspace has none. */
  type Directory = Option<string>

  datatype ProposalState = Pending | Denied

  datatype Proposal = Proposal(id: nat, workspace: WorkspaceId, at: nat, directory: Directory, state: ProposalState)

  /** History, kept for the theorems. `generation` numbers the pairings: each has
      one code and one cookie. `cookie` is what the browser presented. */
  datatype Entry =
    | Compared(generation: nat)
    | Redeemed(generation: nat)
    | Proposed(generation: nat)
    | Accepted(cookie: Option<nat>)
    | HandedOut(cookie: Option<nat>, lease: nat, workspace: WorkspaceId)
    | Revoked

  datatype Session = Session(
    port: nat, generation: nat, workspace: WorkspaceId, directory: Directory,
    born: nat, attempts: nat, used: bool,
    sessionsUntil: nat, timer: bool,
    lease: nat, leases: nat, aborted: set<nat>,
    requestCount: nat, pending: Option<Proposal>, proposals: nat, listening: bool,
    sockets: set<nat>, log: seq<Entry>)

  function Fresh(workspace: WorkspaceId, directory: Directory, now: nat): Session {
    Session(0, 0, workspace, directory, now, 0, false, 0, false, 0, 1, {}, 0, None, 0, false, {}, [])
  }

  function Log(s: Session, entry: Entry): Session {
    s.(log := s.log + [entry])
  }

  /** What the environment shows to one check: whether the owner binding and the
      workspace are still the captured ones, and the clock. */
  datatype Look = Look(approved: bool, now: nat)

  /** What a browser request carries. A cookie is the generation that issued it. */
  datatype Credential = Credential(originIsExact: bool, json: bool, cookie: Option<nat>)

  // ---------- Revocation and authority ----------

  function Revoke(s: Session): Session {
    Log(s.(aborted := s.aborted + {s.lease}, sessionsUntil := 0, pending := None, timer := false, sockets := {}),
        Revoked)
  }

  datatype Verdict = Verdict(session: Session, holds: bool)

  function Active(s: Session, look: Look): Verdict {
    if !look.approved then Verdict(Revoke(s), false)
    else Verdict(s, s.port != 0 && look.now < s.sessionsUntil)
  }

  function IsSession(s: Session, credential: Credential, look: Look): Verdict {
    var active := Active(s, look);
    if active.holds && credential.cookie == Some(s.generation)
    then Verdict(Log(s, Accepted(credential.cookie)), true)
    else Verdict(active.session, false)
  }

  function IsAuthorized(s: Session, credential: Credential, look: Look): Verdict {
    if credential.originIsExact then IsSession(s, credential, look) else Verdict(s, false)
  }

  datatype Leased = Leased(session: Session, lease: Option<nat>)

  /** The lease that a browser request gets for its effects. */
  function ActiveSignal(s: Session, credential: Credential, look: Look): Leased {
    var authorized := IsAuthorized(s, credential, look);
    if authorized.holds then
      Leased(Log(authorized.session, HandedOut(credential.cookie, s.lease, s.workspace)), Some(s.lease))
    else
      Leased(authorized.session, None)
  }

  // ---------- Pairing ----------

  datatype Status = Done | Denied403 | Invalid400 | Missing404 | Pending409 | Limit429 | Unavailable503

  datatype Reply = Reply(session: Session, status: Status)

  predicate CodeExpired(s: Session, now: nat) {
    s.used || s.attempts >= MAX_PAIR_ATTEMPTS || now - s.born > PAIR_TTL
  }

  /** The checks before the body is read. */
  function PairStart(s: Session, credential: Credential, look: Look): Reply {
    if !credential.originIsExact || !credential.json then Reply(s, Denied403)
    else if !look.approved then Reply(Revoke(s), Denied403)
    else if CodeExpired(s, look.now) then Reply(s, Denied403)
    else Reply(s, Done)
  }

  function Redeem(s: Session, now: nat): Session {
    Log(s.(used := true, lease := s.leases, leases := s.leases + 1,
           sessionsUntil := now + SESSION_TTL, timer := true),
        Redeemed(s.generation))
  }

  /** After the body: everything is checked again, then the code is compared. */
  function PairFinish(s: Session, credential: Credential, look: Look, readable: bool, code: Option<nat>): Reply {
    if !readable then Reply(s, Invalid400)
    else if !credential.originIsExact || !look.approved then Reply(Revoke(s), Denied403)
    else if CodeExpired(s, look.now) then Reply(s, Denied403)
    else
      var tried := Log(s.(attempts := s.attempts + 1), Compared(s.generation));
      if code != Some(s.generation) then Reply(tried, Denied403) else Reply(Redeem(tried, look.now), Done)
  }

  // ---------- Workspace proposals ----------

  predicate StillPending(s: Session, now: nat) {
    s.pending.Some? && s.pending.value.state == Pending && now - s.pending.value.at <= WORKSPACE_REQUEST_TTL
  }

  /** The limits, checked before and again after the body is read. */
  function ProposalLimits(s: Session, now: nat): Status {
    if s.requestCount >= MAX_WORKSPACE_REQUESTS then Limit429
    else if StillPending(s, now) then Pending409
    else Done
  }

  function ProposalStart(s: Session, credential: Credential, look: Look): Reply {
    var authorized := IsAuthorized(s, credential, look);
    if !authorized.holds || !credential.json || !s.listening then Reply(authorized.session, Denied403)
    else Reply(authorized.session, ProposalLimits(authorized.session, look.now))
  }

  /** `target` is the workspace the body names, if it is well formed; `directory`
      is what the registry yields for it. */
  function ProposalFinish(s: Session, credential: Credential, look: Look, readable: bool,
                          target: Option<WorkspaceId>, directory: Option<Directory>, hostListens: bool): Reply {
    if !readable then
      Reply(s, Invalid400)
    else
      var authorized := IsAuthorized(s, credential, look);
      var a := authorized.session;
      if !authorized.holds then Reply(a, Denied403)
      else if ProposalLimits(a, look.now) != Done then Reply(a, ProposalLimits(a, look.now))
      else if target.None? || target.value == a.workspace then Reply(a, Invalid400)
      else if directory.None? then Reply(a, Missing404)
      else
        var made := Log(a.(pending := Some(Proposal(a.proposals, target.value, look.now, directory.value, Pending)),
                           proposals := a.proposals + 1, requestCount := a.requestCount + 1),
                        Proposed(a.generation));
        if hostListens then Reply(made, Done) else Reply(made.(pending := None), Unavailable503)
  }

  // ---------- The trusted host ----------

  function Rotated(s: Session, workspace: WorkspaceId, directory: Directory, now: nat): Session {
    Revoke(s).(workspace := workspace, directory := directory, generation := s.generation + 1,
               born := now, attempts := 0, used := false, requestCount := 0)
  }

  /** `directory` is what capturing the workspace yields, if it can be. */
  function Rotate(s: Session, workspace: WorkspaceId, look: Look, directory: Option<Directory>): Reply {
    if !look.approved || directory.None? then Reply(s, Denied403)
    else Reply(Rotated(s, workspace, directory.value, look.now), Done)
  }

  /** Approving a proposal rotates to its workspace, if that is unchanged. */
  function Approve(s: Session, id: nat, look: Look, candidate: Option<Directory>,
                   again: Look, directory: Option<Directory>): Reply {
    if s.pending.None? || s.pending.value.id != id || !StillPending(s, look.now) then Reply(s, Denied403)
    else if !look.approved || candidate != Some(s.pending.value.directory) then Reply(s, Denied403)
    else Rotate(s, s.pending.value.workspace, again, directory)
  }

  function Deny(s: Session, id: nat, now: nat): Reply {
    if s.pending.None? || s.pending.value.id != id || !StillPending(s, now) then Reply(s, Denied403)
    else Reply(s.(pending := Some(s.pending.value.(state := Denied))), Done)
  }

  function Logout(s: Session, credential: Credential, look: Look): Reply {
    var authorized := IsAuthorized(s, credential, look);
    if authorized.holds then Reply(Revoke(authorized.session), Done) else Reply(authorized.session, Denied403)
  }

  function Track(s: Session, socket: nat, look: Look): Session {
    var active := Active(s, look);
    if active.holds then s.(sockets := s.sockets + {socket}) else active.session
  }

  // ---------- Runs ----------

  datatype Event =
    | BindPort(port: nat)
    | Listen
    | PairStarts(credential: Credential, look: Look)
    | PairBody(credential: Credential, look: Look, readable: bool, code: Option<nat>)
    | ProposalStarts(credential: Credential, look: Look)
    | ProposalBody(credential: Credential, look: Look, readable: bool,
                   target: Option<WorkspaceId>, found: Option<Directory>, hostListens: bool)
    | Reads(credential: Credential, look: Look)
    | Effects(credential: Credential, look: Look)
    | LogsOut(credential: Credential, look: Look)
    | Rotates(workspace: WorkspaceId, look: Look, found: Option<Directory>)
    | Approves(id: nat, look: Look, candidate: Option<Directory>, again: Look, found: Option<Directory>)
    | Denies(id: nat, now: nat)
    | Connects(socket: nat, look: Look)
    | Disconnects(socket: nat)
    | TimerFires
    | Closes

  function Step(s: Session, e: Event): Session {
    match e
    case BindPort(port) => if s.port == 0 && 0 < port <= 65535 then s.(port := port) else s
    case Listen => s.(listening := true)
    case PairStarts(credential, look) => PairStart(s, credential, look).session
    case PairBody(credential, look, readable, code) => PairFinish(s, credential, look, readable, code).session
    case ProposalStarts(credential, look) => ProposalStart(s, credential, look).session
    case ProposalBody(credential, look, readable, target, found, hostListens) =>
      ProposalFinish(s, credential, look, readable, target, found, hostListens).session
    case Reads(credential, look) => IsSession(s, credential, look).session
    case Effects(credential, look) => ActiveSignal(s, credential, look).session
    case LogsOut(credential, look) => Logout(s, credential, look).session
    case Rotates(workspace, look, found) => Rotate(s, workspace, look, found).session
    case Approves(id, look, candidate, again, found) => Approve(s, id, look, candidate, again, found).session
    case Denies(id, now) => Deny(s, id, now).session
    case Connects(socket, look) => Track(s, socket, look)
    case Disconnects(socket) => s.(sockets := s.sockets - {socket})
    case TimerFires => if s.timer then Revoke(s) else s
    case Closes => Revoke(s)
  }

  function After(s: Session, events: seq<Event>): Session
    decreases |events|
  {
    if events == [] then s else After(Step(s, events[0]), events[1..])
  }

  // ---------- What every step keeps ----------

  function Count(log: seq<Entry>, entry: Entry): nat {
    if log == [] then 0 else Count(log[..|log| - 1], entry) + if log[|log| - 1] == entry then 1 else 0
  }

  lemma CountAppend(log: seq<Entry>, last: Entry, entry: Entry)
    ensures Count(log + [last], entry) == Count(log, entry) + if last == entry then 1 else 0
  {
    assert (log + [last])[..|log|] == log;
  }

  /** How often the code was compared and redeemed and how many proposals were made
      in each generation. */
  ghost predicate CountsInv(s: Session) {
    && s.attempts <= MAX_PAIR_ATTEMPTS && s.requestCount <= MAX_WORKSPACE_REQUESTS
    && (forall g: nat :: CountOk(s, g))
  }

  ghost predicate CountOk(s: Session, g: nat) {
    && (g == s.generation ==>
          && Count(s.log, Compared(g)) == s.attempts && Count(s.log, Proposed(g)) == s.requestCount
          && Count(s.log, Redeemed(g)) == if s.used then 1 else 0)
    && (g > s.generation ==>
          Count(s.log, Compared(g)) == 0 && Count(s.log, Proposed(g)) == 0 && Count(s.log, Redeemed(g)) == 0)
    && Count(s.log, Compared(g)) <= MAX_PAIR_ATTEMPTS && Count(s.log, Proposed(g)) <= MAX_WORKSPACE_REQUESTS
    && Count(s.log, Redeemed(g)) <= 1
  }

  lemma LogCounts(s: Session, entry: Entry, g: nat)
    ensures Count(Log(s, entry).log, Compared(g)) == Count(s.log, Compared(g)) + if entry == Compared(g) then 1 else 0
    ensures Count(Log(s, entry).log, Proposed(g)) == Count(s.log, Proposed(g)) + if entry == Proposed(g) then 1 else 0
    ensures Count(Log(s, entry).log, Redeemed(g)) == Count(s.log, Redeemed(g)) + if entry == Redeemed(g) then 1 else 0
  {
    CountAppend(s.log, entry, Compared(g));
    CountAppend(s.log, entry, Proposed(g));
    CountAppend(s.log, entry, Redeemed(g));
  }

  /** A session is live from its redemption until the next revocation. */
  ghost predicate LiveSince(log: seq<Entry>, generation: nat, j: nat) {
    && j < |log| && log[j] == Redeemed(generation)
    && forall r :: j < r < |log| ==> log[r] != Revoked
  }

  ghost predicate Live(log: seq<Entry>, generation: nat) {
    exists j: nat :: LiveSince(log, generation, j)
  }

  ghost predicate LiveInv(s: Session) {
    && (s.sessionsUntil > 0 ==> s.used && Live(s.log, s.generation))
    && (s.sockets != {} ==> s.sessionsUntil > 0)
    && (forall k :: 0 <= k < |s.log| && s.log[k].Accepted? ==>
          s.log[k].cookie.Some? && Live(s.log[..k], s.log[k].cookie.value))
  }

  ghost predicate LeaseOk(s: Session, entry: Entry) {
    entry.HandedOut? && entry.lease !in s.aborted ==>
      && entry.lease == s.lease && entry.workspace == s.workspace && entry.cookie == Some(s.generation)
      && s.used && s.sessionsUntil > 0
  }

  ghost predicate LeaseInv(s: Session) {
    && s.lease < s.leases
    && (forall k :: 0 <= k < |s.log| ==> LeaseOk(s, s.log[k]))
    && (forall k :: 0 <= k < |s.log| && s.log[k].HandedOut? ==> s.log[k].lease < s.leases)
  }

  ghost predicate Inv(s: Session) {
    CountsInv(s) && LiveInv(s) && LeaseInv(s)
  }

  lemma LiveGrows(log: seq<Entry>, entry: Entry, generation: nat)
    requires Live(log, generation) && entry != Revoked
    ensures Live(log + [entry], generation)
  {
    var j: nat :| LiveSince(log, generation, j);
    assert LiveSince(log + [entry], generation, j);
  }

  lemma RevokeKeepsInv(s: Session)
    requires Inv(s)
    ensures Inv(Revoke(s))
  {
    hide Live, Count;
    var v := Revoke(s);
    forall g: nat
      ensures CountOk(v, g)
    {
      LogCounts(s, Revoked, g);
      assert CountOk(s, g);
    }
    KeepsPast(s.log, Revoked);
    forall k | 0 <= k < |v.log|
      ensures LeaseOk(v, v.log[k])
    {
      if k < |s.log| {
        assert LeaseOk(s, s.log[k]);
      }
    }
  }

  /** The prefixes before earlier entries are those of the shorter log. */
  lemma KeepsPast(log: seq<Entry>, entry: Entry)
    ensures forall k :: 0 <= k < |log| ==> (log + [entry])[..k] == log[..k] && (log + [entry])[k] == log[k]
    ensures (log + [entry])[..|log|] == log
  {
  }

  /** Entries that only report leave the session as it is. */
  lemma ReportKeepsInv(s: Session, entry: Entry)
    requires Inv(s) && s.sessionsUntil > 0
    requires entry == Accepted(Some(s.generation)) || entry == HandedOut(Some(s.generation), s.lease, s.workspace)
    ensures Inv(Log(s, entry))
  {
    hide Live, Count;
    var v := Log(s, entry);
    forall g: nat
      ensures CountOk(v, g)
    {
      LogCounts(s, entry, g);
      assert CountOk(s, g);
    }
    KeepsPast(s.log, entry);
    LiveGrows(s.log, entry, s.generation);
    forall k | 0 <= k < |v.log|
      ensures LeaseOk(v, v.log[k])
    {
      if k < |s.log| {
        assert LeaseOk(s, s.log[k]);
      }
    }
  }

  lemma AuthorizedKeepsInv(s: Session, credential: Credential, look: Look)
    requires Inv(s)
    ensures Inv(IsSession(s, credential, look).session) && Inv(IsAuthorized(s, credential, look).session)
    ensures IsAuthorized(s, credential, look).holds ==>
              var v := IsAuthorized(s, credential, look).session;
              v == Log(s, Accepted(credential.cookie)) && credential.cookie == Some(s.generation) && s.sessionsUntil > 0
  {
    hide Inv;
    RevokeKeepsInv(s);
    if Active(s, look).holds {
      ReportKeepsInv(s, Accepted(Some(s.generation)));
    }
  }

  lemma CompareKeepsInv(s: Session)
    requires Inv(s) && !s.used && s.attempts < MAX_PAIR_ATTEMPTS
    ensures Inv(Log(s.(attempts := s.attempts + 1), Compared(s.generation)))
  {
    hide Live, Count;
    var v := Log(s.(attempts := s.attempts + 1), Compared(s.generation));
    forall g: nat
      ensures CountOk(v, g)
    {
      LogCounts(s, Compared(s.generation), g);
      assert CountOk(s, g);
      assert CountOk(s, s.generation);
    }
    KeepsPast(s.log, Compared(s.generation));
    forall k | 0 <= k < |v.log|
      ensures LeaseOk(v, v.log[k])
    {
      if k < |s.log| {
        assert LeaseOk(s, s.log[k]);
      }
    }
  }

  lemma RedeemKeepsInv(s: Session, now: nat)
    requires Inv(s) && !s.used
    ensures Inv(Redeem(s, now))
  {
    hide Count;
    var entry, v := Redeemed(s.generation), Redeem(s, now);
    forall g: nat
      ensures CountOk(v, g)
    {
      LogCounts(s, entry, g);
      assert CountOk(s, g);
      assert CountOk(s, s.generation);
    }
    KeepsPast(s.log, entry);
    assert LiveSince(v.log, s.generation, |s.log|);
    forall k | 0 <= k < |v.log|
      ensures LeaseOk(v, v.log[k])
    {
      if k < |s.log| {
        assert LeaseOk(s, s.log[k]);
      }
    }
  }

  lemma PairKeepsInv(s: Session, credential: Credential, look: Look, readable: bool, code: Option<nat>)
    requires Inv(s)
    ensures Inv(PairStart(s, credential, look).session)
    ensures Inv(PairFinish(s, credential, look, readable, code).session)
  {
    hide Inv, Redeem, Revoke;
    RevokeKeepsInv(s);
    if !CodeExpired(s, look.now) {
      CompareKeepsInv(s);
      RedeemKeepsInv(Log(s.(attempts := s.attempts + 1), Compared(s.generation)), look.now);
    }
  }

  lemma ProposeKeepsInv(s: Session, pending: Option<Proposal>)
    requires Inv(s) && s.requestCount < MAX_WORKSPACE_REQUESTS
    ensures Inv(Log(s.(pending := pending, proposals := s.proposals + 1, requestCount := s.requestCount + 1),
                    Proposed(s.generation)))
  {
    hide Live, Count;
    var entry := Proposed(s.generation);
    var v := Log(s.(pending := pending, proposals := s.proposals + 1, requestCount := s.requestCount + 1), entry);
    forall g: nat
      ensures CountOk(v, g)
    {
      LogCounts(s, entry, g);
      assert CountOk(s, g);
      assert CountOk(s, s.generation);
    }
    KeepsPast(s.log, entry);
    if s.sessionsUntil > 0 {
      LiveGrows(s.log, entry, s.generation);
    }
    forall k | 0 <= k < |v.log|
      ensures LeaseOk(v, v.log[k])
    {
      if k < |s.log| {
        assert LeaseOk(s, s.log[k]);
      }
    }
  }

  lemma ProposalKeepsInv(s: Session, credential: Credential, look: Look, readable: bool,
                         target: Option<WorkspaceId>, directory: Option<Directory>, hostListens: bool)
    requires Inv(s)
    ensures Inv(ProposalStart(s, credential, look).session)
    ensures Inv(ProposalFinish(s, credential, look, readable, target, directory, hostListens).session)
  {
    hide Inv, IsAuthorized, StillPending;
    AuthorizedKeepsInv(s, credential, look);
    var a := IsAuthorized(s, credential, look).session;
    if a.requestCount < MAX_WORKSPACE_REQUESTS {
      ProposeKeepsInv(a, None);
      if target.Some? && directory.Some? {
        ProposeKeepsInv(a, Some(Proposal(a.proposals, target.value, look.now, directory.value, Pending)));
      }
    }
  }

  lemma RotatedKeepsInv(s: Session, workspace: WorkspaceId, directory: Directory, now: nat)
    requires Inv(s)
    ensures Inv(Rotated(s, workspace, directory, now))
  {
    hide Live, Count;
    RevokeKeepsInv(s);
    var u, v := Revoke(s), Rotated(s, workspace, directory, now);
    forall g: nat
      ensures CountOk(v, g)
    {
      assert CountOk(u, g);
    }
    forall k | 0 <= k < |v.log|
      ensures LeaseOk(v, v.log[k])
    {
      assert LeaseOk(u, u.log[k]);
    }
  }

  lemma HostKeepsInv(s: Session, id: nat, look: Look, candidate: Option<Directory>, again: Look, found: Option<Directory>,
                     workspace: WorkspaceId)
    requires Inv(s)
    ensures Inv(Rotate(s, workspace, look, found).session)
    ensures Inv(Approve(s, id, look, candidate, again, found).session)
  {
    hide Inv, Rotated;
    if found.Some? {
      RotatedKeepsInv(s, workspace, found.value, look.now);
      if s.pending.Some? {
        RotatedKeepsInv(s, s.pending.value.workspace, found.value, again.now);
      }
    }
  }

  /** Fields that the invariant does not read, and sockets of an active session. */
  lemma OtherFieldsKeepInv(s: Session, v: Session)
    requires Inv(s)
    requires v == s.(port := v.port, listening := v.listening, pending := v.pending, sockets := v.sockets)
    requires v.sockets != {} ==> s.sessionsUntil > 0
    ensures Inv(v)
  {
    hide Live, Count;
    assert forall g: nat :: CountOk(s, g) ==> CountOk(v, g);
    assert forall k :: 0 <= k < |s.log| && LeaseOk(s, s.log[k]) ==> LeaseOk(v, v.log[k]);
  }

  lemma SignalKeepsInv(s: Session, credential: Credential, look: Look)
    requires Inv(s)
    ensures Inv(ActiveSignal(s, credential, look).session)
  {
    hide Inv, IsAuthorized;
    AuthorizedKeepsInv(s, credential, look);
    var authorized := IsAuthorized(s, credential, look);
    if authorized.holds {
      ReportKeepsInv(authorized.session, HandedOut(Some(s.generation), s.lease, s.workspace));
    }
  }

  lemma SocketKeepsInv(s: Session, socket: nat, look: Look)
    requires Inv(s)
    ensures Inv(Track(s, socket, look)) && Inv(s.(sockets := s.sockets - {socket}))
  {
    hide CountsInv, LeaseInv, Revoke;
    OtherFieldsKeepInv(s, s.(sockets := s.sockets - {socket}));
    RevokeKeepsInv(s);
    if Active(s, look).holds {
      OtherFieldsKeepInv(s, s.(sockets := s.sockets + {socket}));
    }
  }

  lemma QuietStepKeepsInv(s: Session, e: Event)
    requires Inv(s) && (e.BindPort? || e.Listen? || e.Denies?)
    ensures Inv(Step(s, e))
  {
    hide CountsInv, LeaseInv;
    OtherFieldsKeepInv(s, Step(s, e));
  }

  lemma StepKeepsInv(s: Session, e: Event)
    requires Inv(s)
    ensures Inv(Step(s, e))
  {
    hide Inv, PairStart, PairFinish, ProposalStart, ProposalFinish, IsSession, IsAuthorized, Rotate, Approve, Revoke;
    match e {
      case PairStarts(credential, look) => PairKeepsInv(s, credential, look, true, None);
      case PairBody(credential, look, readable, code) => PairKeepsInv(s, credential, look, readable, code);
      case ProposalStarts(credential, look) => ProposalKeepsInv(s, credential, look, true, None, None, true);
      case ProposalBody(credential, look, readable, target, found, hostListens) =>
        ProposalKeepsInv(s, credential, look, readable, target, found, hostListens);
      case Reads(credential, look) => AuthorizedKeepsInv(s, credential, look);
      case Effects(credential, look) => SignalKeepsInv(s, credential, look);
      case LogsOut(credential, look) =>
        AuthorizedKeepsInv(s, credential, look);
        RevokeKeepsInv(IsAuthorized(s, credential, look).session);
      case Rotates(workspace, look, found) => HostKeepsInv(s, 0, look, None, look, found, workspace);
      case Approves(id, look, candidate, again, found) => HostKeepsInv(s, id, look, candidate, again, found, "");
      case TimerFires => RevokeKeepsInv(s);
      case Closes => RevokeKeepsInv(s);
      case Connects(socket, look) => SocketKeepsInv(s, socket, look);
      case Disconnects(socket) => SocketKeepsInv(s, socket, Look(false, 0));
      case _ => QuietStepKeepsInv(s, e);
    }
  }

  lemma {:induction false} AfterKeepsInv(s: Session, events: seq<Event>)
    requires Inv(s)
    ensures Inv(After(s, events))
    decreases |events|
  {
    hide Inv;
    if events != [] {
      StepKeepsInv(s, events[0]);
      AfterKeepsInv(Step(s, events[0]), events[1..]);
    }
  }

  lemma FreshInv(workspace: WorkspaceId, directory: Directory, now: nat)
    ensures Inv(Fresh(workspace, directory, now))
  {
  }

  // ---------- Theorems over every run ----------

  /** However pairing, proposal, logout and rotation steps overlap, one generation
      sees at most one redemption, five code comparisons and five proposals. */
  lemma GenerationLimits(workspace: WorkspaceId, directory: Directory, now: nat, events: seq<Event>, g: nat)
    ensures var log := After(Fresh(workspace, directory, now), events).log;
            && Count(log, Redeemed(g)) <= 1
            && Count(log, Compared(g)) <= 5
            && Count(log, Proposed(g)) <= 5
  {
    hide After, LiveInv, LeaseInv;
    FreshInv(workspace, directory, now);
    AfterKeepsInv(Fresh(workspace, directory, now), events);
    assert CountOk(After(Fresh(workspace, directory, now), events), g);
  }

  lemma {:induction false} TwiceCounted(log: seq<Entry>, entry: Entry, i: nat, j: nat)
    requires i < j < |log| && log[i] == entry && log[j] == entry
    ensures Count(log, entry) >= 2
    decreases |log|
  {
    if j == |log| - 1 {
      OnceCounted(log[..j], entry, i);
    } else {
      TwiceCounted(log[..|log| - 1], entry, i, j);
    }
  }

  lemma {:induction false} OnceCounted(log: seq<Entry>, entry: Entry, i: nat)
    requires i < |log| && log[i] == entry
    ensures Count(log, entry) >= 1
    decreases |log|
  {
    if i < |log| - 1 {
      OnceCounted(log[..|log| - 1], entry, i);
    }
  }

  /** A cookie is accepted only after its redemption and never after a revocation
      that follows it, whatever happens in between. */
  lemma RevokedCookieStaysRevoked(workspace: WorkspaceId, directory: Directory, now: nat, events: seq<Event>,
                                  g: nat, redeemed: nat, k: nat)
    requires var log := After(Fresh(workspace, directory, now), events).log;
             k < |log| && log[k] == Accepted(Some(g)) && redeemed < |log| && log[redeemed] == Redeemed(g)
    ensures var log := After(Fresh(workspace, directory, now), events).log;
            redeemed < k && forall r :: redeemed < r < k ==> log[r] != Revoked
  {
    hide After, LeaseInv, Count;
    FreshInv(workspace, directory, now);
    AfterKeepsInv(Fresh(workspace, directory, now), events);
    var s := After(Fresh(workspace, directory, now), events);
    assert Live(s.log[..k], g);
    var j: nat :| LiveSince(s.log[..k], g, j);
    assert s.log[j] == Redeemed(g);
    assert CountOk(s, g);
    if j < redeemed {
      TwiceCounted(s.log, Redeemed(g), j, redeemed);
    } else if redeemed < j {
      TwiceCounted(s.log, Redeemed(g), redeemed, j);
    }
    forall r | redeemed < r < k
      ensures s.log[r] != Revoked
    {
      assert s.log[r] == s.log[..k][r];
    }
  }

  /** Every accepted cookie had been redeemed. */
  lemma AcceptedCookieWasRedeemed(workspace: WorkspaceId, directory: Directory, now: nat, events: seq<Event>, k: nat)
    requires var log := After(Fresh(workspace, directory, now), events).log; k < |log| && log[k].Accepted?
    ensures var log := After(Fresh(workspace, directory, now), events).log;
            log[k].cookie.Some? && exists j :: 0 <= j < k && log[j] == Redeemed(log[k].cookie.value)
  {
    hide After, LeaseInv, CountsInv;
    FreshInv(workspace, directory, now);
    AfterKeepsInv(Fresh(workspace, directory, now), events);
    var s := After(Fresh(workspace, directory, now), events);
    assert Live(s.log[..k], s.log[k].cookie.value);
    var j: nat :| LiveSince(s.log[..k], s.log[k].cookie.value, j);
    assert s.log[j] == Redeemed(s.log[k].cookie.value);
  }

  /** A lease that is not aborted was handed out for the workspace and pairing that
      are selected now, and that pairing has not been revoked since. */
  lemma LiveLeasesAreCurrent(workspace: WorkspaceId, directory: Directory, now: nat, events: seq<Event>, k: nat)
    requires var s := After(Fresh(workspace, directory, now), events);
             k < |s.log| && s.log[k].HandedOut? && s.log[k].lease !in s.aborted
    ensures var s := After(Fresh(workspace, directory, now), events);
            s.log[k] == HandedOut(Some(s.generation), s.lease, s.workspace) && Live(s.log, s.generation)
  {
    hide After, CountsInv;
    FreshInv(workspace, directory, now);
    AfterKeepsInv(Fresh(workspace, directory, now), events);
    var s := After(Fresh(workspace, directory, now), events);
    assert LeaseOk(s, s.log[k]);
  }

  /** Browser sockets are tracked only while the current pairing is live. */
  lemma SocketsNeedLiveSession(workspace: WorkspaceId, directory: Directory, now: nat, events: seq<Event>)
    requires After(Fresh(workspace, directory, now), events).sockets != {}
    ensures var s := After(Fresh(workspace, directory, now), events);
            Live(s.log, s.generation) && s.sessionsUntil > 0
  {
    hide After, CountsInv, LeaseInv;
    FreshInv(workspace, directory, now);
    AfterKeepsInv(Fresh(workspace, directory, now), events);
  }

  /** The host can approve a proposal exactly while it is pending, young enough and
      its directory unchanged; then every lease so far is aborted, the new pairing
      has its whole budget, and nothing is pending. */
  lemma ApprovalRotates(s: Session, id: nat, look: Look, candidate: Option<Directory>, again: Look, directory: Option<Directory>)
    requires Inv(s)
    ensures var reply := Approve(s, id, look, candidate, again, directory);
            && (reply.status == Done <==>
                  && StillPending(s, look.now) && s.pending.value.id == id
                  && look.approved && candidate == Some(s.pending.value.directory)
                  && again.approved && directory.Some?)
            && (reply.status == Done ==>
                  && reply.session.workspace == s.pending.value.workspace
                  && reply.session.generation == s.generation + 1
                  && (forall k :: 0 <= k < |s.log| && s.log[k].HandedOut? ==> s.log[k].lease in reply.session.aborted)
                  && !CodeExpired(reply.session, again.now) && reply.session.pending == None
                  && reply.session.requestCount == 0 && reply.session.sockets == {})
            && (reply.status != Done ==> reply.session == s)
  {
    hide CountsInv, LiveInv;
    forall k | 0 <= k < |s.log| && s.log[k].HandedOut?
      ensures s.log[k].lease in s.aborted || s.log[k].lease == s.lease
    {
      assert LeaseOk(s, s.log[k]);
    }
  }
}
