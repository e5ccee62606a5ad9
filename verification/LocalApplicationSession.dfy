/** The local application session as the object it is: fields updated in place,
    each method proved against the functions of LocalSession. */
module LocalApplication {
  import opened Wrappers
  import opened LocalSession
  import Model = LocalSession

  // ---------- The model's states field by field ----------

  lemma RevokeShape(s: Session)
    ensures Model.Revoke(s)
            == Session(s.port, s.generation, s.workspace, s.directory, s.born, s.attempts, s.used, 0, false,
                       s.lease, s.leases, s.aborted + {s.lease}, s.requestCount, None, s.proposals, s.listening,
                       {}, s.log + [Revoked])
  {
  }

  lemma RedeemShape(s: Session, now: nat)
    ensures Model.Redeem(s, now)
            == Session(s.port, s.generation, s.workspace, s.directory, s.born, s.attempts, true,
                       now + SESSION_TTL, true, s.leases, s.leases + 1, s.aborted, s.requestCount, s.pending,
                       s.proposals, s.listening, s.sockets, s.log + [Redeemed(s.generation)])
  {
  }

  /** A session with one more proposal. */
  function WithProposal(s: Session, target: WorkspaceId, now: nat, directory: Directory): Session {
    Session(s.port, s.generation, s.workspace, s.directory, s.born, s.attempts, s.used, s.sessionsUntil, s.timer,
            s.lease, s.leases, s.aborted, s.requestCount + 1,
            Some(Proposal(s.proposals, target, now, directory, Pending)), s.proposals + 1, s.listening,
            s.sockets, s.log + [Proposed(s.generation)])
  }

  lemma ProposalShape(s: Session, credential: Credential, look: Look, target: Option<WorkspaceId>,
                      directory: Option<Directory>, hostListens: bool)
    ensures var a := IsAuthorized(s, credential, look).session;
            ProposalFinish(s, credential, look, true, target, directory, hostListens)
            == if !IsAuthorized(s, credential, look).holds then Reply(a, Denied403)
               else if ProposalLimits(a, look.now) != Done then Reply(a, ProposalLimits(a, look.now))
               else if target.None? || target.value == a.workspace then Reply(a, Invalid400)
               else if directory.None? then Reply(a, Missing404)
               else if hostListens then Reply(WithProposal(a, target.value, look.now, directory.value), Done)
               else Reply(WithProposal(a, target.value, look.now, directory.value).(pending := None), Unavailable503)
  {
    hide IsAuthorized, ProposalLimits;
  }

  lemma RotatedShape(s: Session, workspace: WorkspaceId, directory: Directory, now: nat)
    ensures Model.Rotated(s, workspace, directory, now)
            == Session(s.port, s.generation + 1, workspace, directory, now, 0, false, 0, false,
                       s.lease, s.leases, s.aborted + {s.lease}, 0, None, s.proposals, s.listening,
                       {}, s.log + [Revoked])
  {
  }

  class LocalApplicationSession {
    var port: nat
    var generation: nat
    var workspace: WorkspaceId
    var workspaceIdentity: Directory
    var born: nat
    var attempts: nat
    var used: bool
    var sessionsUntil: nat
    var expiryTimer: bool
    var sessionAbort: nat
    var leases: nat
    var aborted: set<nat>
    var requestCount: nat
    var pendingRequest: Option<Proposal>
    var proposals: nat
    var listening: bool
    var sockets: set<nat>
    ghost var log: seq<Entry>

    ghost function Abs(): Session
      reads this
    {
      Session(port, generation, workspace, workspaceIdentity, born, attempts, used, sessionsUntil, expiryTimer,
              sessionAbort, leases, aborted, requestCount, pendingRequest, proposals, listening, sockets, log)
    }

    constructor (workspace: WorkspaceId, directory: Directory, now: nat)
      ensures Abs() == Fresh(workspace, directory, now)
    {
      port, generation, this.workspace, workspaceIdentity := 0, 0, workspace, directory;
      born, attempts, used, sessionsUntil, expiryTimer := now, 0, false, 0, false;
      sessionAbort, leases, aborted := 0, 1, {};
      requestCount, pendingRequest, proposals, listening, sockets := 0, None, 0, false, {};
      log := [];
    }

    method Revoke()
      modifies this`aborted, this`sessionsUntil, this`pendingRequest, this`expiryTimer, this`sockets, this`log
      ensures Abs() == Model.Revoke(old(Abs()))
    {
      hide Model.Revoke;
      RevokeShape(Abs());
      aborted := aborted + {sessionAbort};
      sessionsUntil := 0;
      pendingRequest := None;
      expiryTimer := false;
      sockets := {};
      log := log + [Revoked];
    }

    method Active(look: Look) returns (active: bool)
      modifies this
      ensures Verdict(Abs(), active) == Model.Active(old(Abs()), look)
    {
      if !look.approved {
        Revoke();
        return false;
      }
      active := port != 0 && look.now < sessionsUntil;
    }

    method IsSession(credential: Credential, look: Look) returns (holds: bool)
      modifies this
      ensures Verdict(Abs(), holds) == Model.IsSession(old(Abs()), credential, look)
    {
      var active := Active(look);
      holds := active && credential.cookie == Some(generation);
      if holds {
        log := log + [Accepted(credential.cookie)];
      }
    }

    method IsAuthorizedBrowser(credential: Credential, look: Look) returns (holds: bool)
      modifies this
      ensures Verdict(Abs(), holds) == IsAuthorized(old(Abs()), credential, look)
    {
      holds := false;
      if credential.originIsExact {
        holds := IsSession(credential, look);
      }
    }

    method ActiveBrowserSignal(credential: Credential, look: Look) returns (lease: Option<nat>)
      modifies this
      ensures Leased(Abs(), lease) == ActiveSignal(old(Abs()), credential, look)
    {
      var authorized := IsAuthorizedBrowser(credential, look);
      lease := None;
      if authorized {
        lease := Some(sessionAbort);
        log := log + [HandedOut(credential.cookie, sessionAbort, workspace)];
      }
    }

    // ---------- Pairing ----------

    method BeginPairing(credential: Credential, look: Look) returns (status: Status)
      modifies this
      ensures Reply(Abs(), status) == PairStart(old(Abs()), credential, look)
    {
      if !credential.originIsExact || !credential.json {
        return Denied403;
      }
      if !look.approved {
        Revoke();
        return Denied403;
      }
      if used || attempts >= MAX_PAIR_ATTEMPTS || look.now - born > PAIR_TTL {
        return Denied403;
      }
      status := Done;
    }

    method FinishPairing(credential: Credential, look: Look, readable: bool, code: Option<nat>) returns (status: Status)
      modifies this
      ensures Reply(Abs(), status) == PairFinish(old(Abs()), credential, look, readable, code)
    {
      hide Model.Redeem, Model.Revoke;
      if !readable {
        return Invalid400;
      }
      if !credential.originIsExact || !look.approved {
        Revoke();
        return Denied403;
      }
      if used || attempts >= MAX_PAIR_ATTEMPTS || look.now - born > PAIR_TTL {
        return Denied403;
      }
      attempts := attempts + 1;
      log := log + [Compared(generation)];
      if code != Some(generation) {
        return Denied403;
      }
      Redeem(look.now);
      status := Done;
    }

    method Redeem(now: nat)
      modifies this`used, this`sessionAbort, this`leases, this`sessionsUntil, this`expiryTimer, this`log
      ensures Abs() == Model.Redeem(old(Abs()), now)
    {
      hide Model.Redeem;
      RedeemShape(Abs(), now);
      used := true;
      sessionAbort, leases := leases, leases + 1;
      sessionsUntil := now + SESSION_TTL;
      expiryTimer := true;
      log := log + [Redeemed(generation)];
    }

    // ---------- Workspace proposals ----------

    method CheckProposalLimits(now: nat) returns (status: Status)
      ensures status == ProposalLimits(Abs(), now)
    {
      if requestCount >= MAX_WORKSPACE_REQUESTS {
        return Limit429;
      }
      if pendingRequest.Some? && pendingRequest.value.state == Pending
         && now - pendingRequest.value.at <= WORKSPACE_REQUEST_TTL {
        return Pending409;
      }
      status := Done;
    }

    method BeginProposal(credential: Credential, look: Look) returns (status: Status)
      modifies this
      ensures Reply(Abs(), status) == ProposalStart(old(Abs()), credential, look)
    {
      var authorized := IsAuthorizedBrowser(credential, look);
      if !authorized || !credential.json || !listening {
        return Denied403;
      }
      status := CheckProposalLimits(look.now);
    }

    method FinishProposal(credential: Credential, look: Look, readable: bool, target: Option<WorkspaceId>,
                          directory: Option<Directory>, hostListens: bool) returns (status: Status)
      modifies this
      ensures Reply(Abs(), status)
              == ProposalFinish(old(Abs()), credential, look, readable, target, directory, hostListens)
    {
      if !readable {
        return Invalid400;
      }
      hide IsAuthorized, ProposalLimits, ProposalFinish, WithProposal;
      ProposalShape(Abs(), credential, look, target, directory, hostListens);
      var authorized := IsAuthorizedBrowser(credential, look);
      if !authorized {
        return Denied403;
      }
      status := CheckProposalLimits(look.now);
      if status != Done {
        return;
      }
      if target.None? || target.value == workspace {
        return Invalid400;
      }
      if directory.None? {
        return Missing404;
      }
      Propose(target.value, look.now, directory.value);
      if !hostListens {
        pendingRequest := None;
        return Unavailable503;
      }
    }

    method Propose(target: WorkspaceId, now: nat, directory: Directory)
      modifies this`pendingRequest, this`proposals, this`requestCount, this`log
      ensures Abs() == WithProposal(old(Abs()), target, now, directory)
    {
      pendingRequest := Some(Proposal(proposals, target, now, directory, Pending));
      proposals, requestCount := proposals + 1, requestCount + 1;
      log := log + [Proposed(generation)];
    }

    // ---------- The trusted host ----------

    method RotateWorkspaceFromHost(next: WorkspaceId, look: Look, directory: Option<Directory>) returns (status: Status)
      modifies this
      ensures Reply(Abs(), status) == Rotate(old(Abs()), next, look, directory)
    {
      if !look.approved || directory.None? {
        return Denied403;
      }
      hide Model.Revoke, Model.Rotated;
      RevokeShape(Abs());
      RotatedShape(Abs(), next, directory.value, look.now);
      Revoke();
      workspace, workspaceIdentity := next, directory.value;
      generation := generation + 1;
      born, attempts, used := look.now, 0, false;
      pendingRequest, requestCount := None, 0;
      status := Done;
    }

    method ApproveWorkspaceRequest(id: nat, look: Look, candidate: Option<Directory>, again: Look,
                                   directory: Option<Directory>) returns (status: Status)
      modifies this
      ensures Reply(Abs(), status) == Approve(old(Abs()), id, look, candidate, again, directory)
    {
      if pendingRequest.None? {
        return Denied403;
      }
      var pending := pendingRequest.value;
      if pending.id != id || pending.state != Pending || look.now - pending.at > WORKSPACE_REQUEST_TTL {
        return Denied403;
      }
      if !look.approved || candidate != Some(pending.directory) {
        return Denied403;
      }
      status := RotateWorkspaceFromHost(pending.workspace, again, directory);
    }

    method DenyWorkspaceRequest(id: nat, now: nat) returns (status: Status)
      modifies this
      ensures Reply(Abs(), status) == Deny(old(Abs()), id, now)
    {
      if pendingRequest.None? {
        return Denied403;
      }
      var pending := pendingRequest.value;
      if pending.id != id || pending.state != Pending || now - pending.at > WORKSPACE_REQUEST_TTL {
        return Denied403;
      }
      pendingRequest := Some(pending.(state := Denied));
      status := Done;
    }

    method LogOut(credential: Credential, look: Look) returns (status: Status)
      modifies this
      ensures Reply(Abs(), status) == Logout(old(Abs()), credential, look)
    {
      var authorized := IsAuthorizedBrowser(credential, look);
      if !authorized {
        return Denied403;
      }
      Revoke();
      status := Done;
    }

    method TrackBrowserSocket(socket: nat, look: Look)
      modifies this
      ensures Abs() == Track(old(Abs()), socket, look)
    {
      var active := Active(look);
      if active {
        sockets := sockets + {socket};
      }
    }
  }
}
