/** What the pairing session promises about the requests it is sent: which codes
    redeem, which cookies are honoured and for how long, which events end a session,
    and which proposals the host can approve. Everything is said of the events
    themselves. */
module SessionGuarantees {
  import opened Wrappers
  import opened LocalSession

  // ---------- One request ----------

  /** A session starts unbound, unpaired and unheard, with its whole budget. */
  lemma StartsUnpaired(workspace: WorkspaceId, directory: Directory, now: nat)
    ensures var s := Fresh(workspace, directory, now);
            && s.port == 0 && !s.used && s.sessionsUntil == 0 && !s.timer && !s.listening
            && s.attempts == 0 && s.requestCount == 0 && s.pending.None? && s.sockets == {} && s.log == []
            && s.workspace == workspace && s.directory == directory && s.born == now
  {
  }

  /** A browser request is authorised exactly by the cookie of the present pairing,
      in a bound and unexpired session whose owner is approved. */
  lemma AuthorisedExactly(s: Session, credential: Credential, look: Look)
    ensures var live := look.approved && s.port != 0 && look.now < s.sessionsUntil
                        && credential.cookie == Some(s.generation);
            && (IsSession(s, credential, look).holds <==> live)
            && (ActiveSignal(s, credential, look).lease
                == if credential.originIsExact && live then Some(s.lease) else None)
            && (Logout(s, credential, look).status == Done <==> credential.originIsExact && live)
            && (ProposalStart(s, credential, look).status != Denied403
                <==> credential.originIsExact && live && credential.json && s.listening)
  {
  }

  /** Pairing succeeds exactly with the present code, once, in time and within five
      attempts. Another code only costs an attempt. */
  lemma PairingExactly(s: Session, credential: Credential, look: Look, readable: bool, code: Option<nat>)
    ensures var reply := PairFinish(s, credential, look, readable, code);
            var open := readable && credential.originIsExact && look.approved
                        && !s.used && s.attempts < 5 && look.now - s.born <= 300_000;
            && (reply.status == Done <==> open && code == Some(s.generation))
            && (open && code != Some(s.generation) ==>
                  reply.session == s.(attempts := s.attempts + 1, log := s.log + [Compared(s.generation)]))
            && (reply.status == Done ==>
                  && reply.session.used && reply.session.attempts == s.attempts + 1
                  && reply.session.sessionsUntil == look.now + 28_800_000 && reply.session.timer
                  && reply.session.lease == s.leases && reply.session.leases == s.leases + 1
                  && reply.session.aborted == s.aborted && reply.session.generation == s.generation)
  {
  }

  /** A body is read only where it could still pair. */
  lemma PairingStartsExactly(s: Session, credential: Credential, look: Look)
    ensures PairStart(s, credential, look).status == Done
            <==> credential.originIsExact && credential.json && look.approved
                 && !s.used && s.attempts < 5 && look.now - s.born <= 300_000
    ensures PairStart(s, credential, look).status == Done ==> PairStart(s, credential, look).session == s
  {
  }

  /** A proposal is made exactly by an authorised browser, within five and with none
      pending, for another workspace that is found. */
  lemma ProposingExactly(s: Session, credential: Credential, look: Look, readable: bool,
                         target: Option<WorkspaceId>, directory: Option<Directory>, hostListens: bool)
    ensures var reply := ProposalFinish(s, credential, look, readable, target, directory, hostListens);
            var free := s.pending.None? || s.pending.value.state == Denied || look.now - s.pending.value.at > 90_000;
            && (reply.status == Done <==>
                  && readable && credential.originIsExact && look.approved && s.port != 0
                  && look.now < s.sessionsUntil && credential.cookie == Some(s.generation)
                  && s.requestCount < 5 && free
                  && target.Some? && target.value != s.workspace && directory.Some? && hostListens)
            && (reply.status == Done ==>
                  && reply.session.pending == Some(Proposal(s.proposals, target.value, look.now, directory.value, Pending))
                  && reply.session.proposals == s.proposals + 1 && reply.session.requestCount == s.requestCount + 1
                  && reply.session.workspace == s.workspace && reply.session.generation == s.generation)
            && (reply.status == Unavailable503 ==>
                  reply.session.pending.None? && reply.session.requestCount == s.requestCount + 1)
  {
  }

  /** The host rotates exactly while the owner is approved and the workspace can be
      captured. */
  lemma RotationExactly(s: Session, workspace: WorkspaceId, look: Look, directory: Option<Directory>)
    ensures var reply := Rotate(s, workspace, look, directory);
            && (reply.status == Done <==> look.approved && directory.Some?)
            && (reply.status == Done ==>
                  && reply.session.generation == s.generation + 1
                  && reply.session.workspace == workspace && reply.session.directory == directory.value
                  && reply.session.born == look.now && reply.session.attempts == 0 && !reply.session.used
                  && reply.session.requestCount == 0 && reply.session.pending.None?)
            && (reply.status != Done ==> reply.session == s)
  {
  }

  /** The host denies exactly the pending proposal that it names, within 90 seconds;
      otherwise nothing changes. */
  lemma DenyingExactly(s: Session, id: nat, now: nat)
    ensures Deny(s, id, now).status == Done
            <==> && s.pending.Some? && s.pending.value.id == id && s.pending.value.state == Pending
                 && now - s.pending.value.at <= 90_000
    ensures Deny(s, id, now).status != Done ==> Deny(s, id, now) == Reply(s, Denied403)
  {
  }

  /** A denied proposal keeps everything but its state, so that it can no longer be
      approved. */
  lemma DenialIsFinal(s: Session, id: nat, now: nat, look: Look, candidate: Option<Directory>,
                      again: Look, directory: Option<Directory>)
    requires Deny(s, id, now).status == Done
    ensures var v := Deny(s, id, now).session;
            && s.pending.Some? && s.pending.value.id == id
            && v == s.(pending := Some(s.pending.value.(state := Denied)))
            && Approve(v, id, look, candidate, again, directory).status == Denied403
  {
  }

  /** A socket is tracked exactly by a bound and unexpired session whose owner is
      approved; a closed one is forgotten. */
  lemma TrackingExactly(s: Session, socket: nat, look: Look)
    requires socket !in s.sockets
    ensures socket in Track(s, socket, look).sockets <==> look.approved && s.port != 0 && look.now < s.sessionsUntil
    ensures socket !in Step(Track(s, socket, look), Disconnects(socket)).sockets
  {
  }

  /** The port is bound once, to a port in range, by binding only. */
  lemma PortIsBoundOnce(s: Session, e: Event)
    ensures var v := Step(s, e);
            && (v.port != s.port <==> s.port == 0 && e.BindPort? && 0 < e.port <= 65_535)
            && (v.port != s.port ==> v.port == e.port)
            && (v.listening <==> s.listening || e.Listen?)
  {
    hide IsSession, Rotated, StillPending;
    if FromBrowser(e) {
      ChecksEnd(s, e.credential, e.look);
    } else if e.Rotates? && e.found.Some? {
      RotatedPort(s, e.workspace, e.found.value, e.look.now);
    } else if e.Approves? && e.found.Some? && s.pending.Some? {
      RotatedPort(s, s.pending.value.workspace, e.found.value, e.again.now);
    }
  }

  lemma RotatedPort(s: Session, workspace: WorkspaceId, directory: Directory, now: nat)
    ensures var v := Rotated(s, workspace, directory, now); v.port == s.port && v.listening == s.listening
  {
  }

  // ---------- What begins and what ends a session ----------

  /** The events that end a session, by their own data. */
  predicate Ends(s: Session, e: Event) {
    match e
    case PairStarts(credential, look) => credential.originIsExact && credential.json && !look.approved
    case PairBody(credential, look, readable, _) => readable && (!credential.originIsExact || !look.approved)
    case ProposalStarts(credential, look) => credential.originIsExact && !look.approved
    case ProposalBody(credential, look, readable, _, _, _) => readable && credential.originIsExact && !look.approved
    case Reads(_, look) => !look.approved
    case Effects(credential, look) => credential.originIsExact && !look.approved
    case LogsOut(credential, look) =>
      credential.originIsExact
      && (!look.approved
          || (s.port != 0 && look.now < s.sessionsUntil && credential.cookie == Some(s.generation)))
    case Rotates(_, look, found) => look.approved && found.Some?
    case Approves(id, look, candidate, again, found) =>
      && s.pending.Some? && s.pending.value.id == id && s.pending.value.state == Pending
      && look.now - s.pending.value.at <= 90_000
      && look.approved && candidate == Some(s.pending.value.directory) && again.approved && found.Some?
    case Connects(_, look) => !look.approved
    case TimerFires => s.timer
    case Closes => true
    case _ => false
  }

  /** The event that begins one. */
  predicate Redeems(s: Session, e: Event) {
    && e.PairBody? && e.readable && e.credential.originIsExact && e.look.approved
    && !s.used && s.attempts < 5 && e.look.now - s.born <= 300_000 && e.code == Some(s.generation)
  }

  /** The step revokes: the lease is aborted, the cookie expired, the proposal
      dropped and every socket closed. Otherwise authority changes by redemption
      only. */
  ghost predicate EndsOrKeeps(s: Session, e: Event, v: Session) {
    if Ends(s, e) then
      && v.aborted == s.aborted + {s.lease} && v.leases == s.leases && v.lease == s.lease
      && v.sessionsUntil == 0 && v.pending.None? && v.sockets == {} && !v.timer
    else
      && v.aborted == s.aborted && v.generation == s.generation
      && v.lease == (if Redeems(s, e) then s.leases else s.lease)
      && v.leases == s.leases + (if Redeems(s, e) then 1 else 0)
      && v.workspace == s.workspace && v.directory == s.directory
      && v.sessionsUntil == (if Redeems(s, e) then e.look.now + 28_800_000 else s.sessionsUntil)
      && v.used == (s.used || Redeems(s, e))
  }

  predicate FromBrowser(e: Event) {
    e.Reads? || e.Effects? || e.LogsOut? || e.ProposalStarts? || e.ProposalBody?
  }

  /** Those events, and no others, revoke. */
  lemma EndsExactly(s: Session, e: Event)
    ensures EndsOrKeeps(s, e, Step(s, e))
  {
    hide Ends, Redeems, EndsOrKeeps, Step;
    if FromBrowser(e) {
      BrowserEnds(s, e);
    } else if e.Approves? || e.Rotates? {
      HostEnds(s, e);
    } else {
      OtherEnds(s, e);
    }
  }

  lemma BrowserEnds(s: Session, e: Event)
    requires FromBrowser(e)
    ensures EndsOrKeeps(s, e, Step(s, e))
  {
    hide Revoke, IsSession, ProposalLimits;
    ChecksEnd(s, e.credential, e.look);
    RevokeEnds(s);
    RevokeEnds(Log(s, Accepted(e.credential.cookie)));
  }

  lemma OtherEnds(s: Session, e: Event)
    requires !FromBrowser(e) && !e.Approves? && !e.Rotates?
    ensures EndsOrKeeps(s, e, Step(s, e))
  {
    hide Revoke, StillPending;
    RevokeEnds(s);
  }

  lemma HostEnds(s: Session, e: Event)
    requires e.Approves? || e.Rotates?
    ensures EndsOrKeeps(s, e, Step(s, e))
  {
    hide Rotated;
    if e.found.Some? {
      if e.Rotates? {
        RotatedEnds(s, e.workspace, e.found.value, e.look.now);
      } else if s.pending.Some? {
        RotatedEnds(s, s.pending.value.workspace, e.found.value, e.again.now);
      }
    }
  }

  lemma RevokeEnds(s: Session)
    ensures var v := Revoke(s);
            && v.aborted == s.aborted + {s.lease} && v.leases == s.leases && v.lease == s.lease
            && v.sessionsUntil == 0 && v.pending.None? && v.sockets == {} && !v.timer
            && v.log == s.log + [Revoked]
  {
  }

  lemma RotatedEnds(s: Session, workspace: WorkspaceId, directory: Directory, now: nat)
    ensures var v := Rotated(s, workspace, directory, now);
            && v.aborted == s.aborted + {s.lease} && v.leases == s.leases && v.lease == s.lease
            && v.sessionsUntil == 0 && v.pending.None? && v.sockets == {} && !v.timer
  {
  }

  /** What a check of a browser request leaves behind. */
  lemma ChecksEnd(s: Session, credential: Credential, look: Look)
    ensures IsSession(s, credential, look)
            == if !look.approved then Verdict(Revoke(s), false)
               else if s.port != 0 && look.now < s.sessionsUntil && credential.cookie == Some(s.generation)
               then Verdict(Log(s, Accepted(credential.cookie)), true)
               else Verdict(s, false)
  {
  }

  // ---------- Over every run ----------

  /** The session just before event k. */
  function At(start: Session, events: seq<Event>, k: nat): Session
    requires k <= |events|
  {
    After(start, events[..k])
  }

  lemma {:induction false} AfterAppend(s: Session, events: seq<Event>, e: Event)
    ensures After(s, events + [e]) == Step(After(s, events), e)
    decreases |events|
  {
    hide Step;
    if events == [] {
      assert (events + [e])[1..] == [];
    } else {
      AfterAppend(Step(s, events[0]), events[1..], e);
      assert (events + [e])[1..] == events[1..] + [e];
    }
  }

  lemma AtNext(start: Session, events: seq<Event>, k: nat)
    requires k < |events|
    ensures At(start, events, k + 1) == Step(At(start, events, k), events[k])
  {
    AfterAppend(start, events[..k], events[k]);
    assert events[..k + 1] == events[..k] + [events[k]];
  }

  lemma StartsAt(start: Session, events: seq<Event>)
    ensures At(start, events, 0) == start
  {
  }

  /** Event j redeemed the code of pairing g, and nothing ended that session before
      event k. */
  ghost predicate PairedSince(start: Session, events: seq<Event>, j: nat, k: nat, g: nat)
    requires k <= |events|
  {
    && j < k && events[j].PairBody? && Redeems(At(start, events, j), events[j]) && events[j].code == Some(g)
    && forall m :: j < m < k ==> !Ends(At(start, events, m), events[m])
  }

  /** A session has time left exactly while it is that of such a pairing. */
  ghost predicate Timed(start: Session, events: seq<Event>, k: nat)
    requires k <= |events|
  {
    var s := At(start, events, k);
    && (s.sessionsUntil > 0 ==>
          s.used && exists j: nat :: PairedSince(start, events, j, k, s.generation)
                                     && s.sessionsUntil == events[j].look.now + 28_800_000)
    && (forall j: nat, g: nat :: PairedSince(start, events, j, k, g) ==>
          s.used && g == s.generation && s.sessionsUntil == events[j].look.now + 28_800_000)
  }

  lemma PairedLater(start: Session, events: seq<Event>, j: nat, k: nat, g: nat)
    requires k < |events|
    ensures PairedSince(start, events, j, k + 1, g)
            <==> if j == k then events[k].PairBody? && Redeems(At(start, events, k), events[k]) && events[k].code == Some(g)
                 else PairedSince(start, events, j, k, g) && !Ends(At(start, events, k), events[k])
  {
    hide At, Redeems, Ends;
  }

  lemma {:induction false} EveryMomentIsTimed(workspace: WorkspaceId, directory: Directory, now: nat,
                                              events: seq<Event>, k: nat)
    requires k <= |events|
    ensures Timed(Fresh(workspace, directory, now), events, k)
  {
    hide At, Redeems, Ends, Step;
    var start := Fresh(workspace, directory, now);
    if k == 0 {
      StartsUntimed(workspace, directory, now, events);
    } else {
      EveryMomentIsTimed(workspace, directory, now, events, k - 1);
      var s, v := At(start, events, k - 1), At(start, events, k);
      AtNext(start, events, k - 1);
      StepTimes(s, events[k - 1]);
      forall j: nat, g: nat
        ensures PairedSince(start, events, j, k, g) ==>
                  v.used && g == v.generation && v.sessionsUntil == events[j].look.now + 28_800_000
      {
        PairedLater(start, events, j, k - 1, g);
      }
      if v.sessionsUntil > 0 {
        if Redeems(s, events[k - 1]) {
          PairedLater(start, events, k - 1, k - 1, s.generation);
        } else {
          var j: nat :| PairedSince(start, events, j, k - 1, s.generation)
                        && s.sessionsUntil == events[j].look.now + 28_800_000;
          PairedLater(start, events, j, k - 1, s.generation);
        }
      }
    }
  }

  lemma StartsUntimed(workspace: WorkspaceId, directory: Directory, now: nat, events: seq<Event>)
    ensures At(Fresh(workspace, directory, now), events, 0).sessionsUntil == 0
  {
  }

  lemma StepTimes(s: Session, e: Event)
    ensures var v := Step(s, e);
            && v.sessionsUntil == (if Ends(s, e) then 0 else if Redeems(s, e) then e.look.now + 28_800_000 else s.sessionsUntil)
            && (!Ends(s, e) ==> v.generation == s.generation && v.used == (s.used || Redeems(s, e)))
    ensures Redeems(s, e) ==> e.PairBody? && !Ends(s, e) && !s.used && e.code == Some(s.generation)
  {
    hide Step;
    EndsExactly(s, e);
  }

  /** Whether a request is answered as that of the paired browser. */
  predicate Honours(s: Session, e: Event) {
    match e
    case Reads(credential, look) => IsSession(s, credential, look).holds
    case Effects(credential, look) => ActiveSignal(s, credential, look).lease.Some?
    case LogsOut(credential, look) => Logout(s, credential, look).status == Done
    case ProposalStarts(credential, look) => ProposalStart(s, credential, look).status != Denied403
    case ProposalBody(credential, look, readable, target, found, hostListens) =>
      readable && ProposalFinish(s, credential, look, readable, target, found, hostListens).status != Denied403
    case _ => false
  }

  /** In every run a request is honoured exactly when it shows a cookie whose code an
      earlier event redeemed less than eight hours before, with nothing in between
      that ended that session: no logout, rotation, approval, close, expiry or stale
      owner. Besides, the owner is approved, the port bound, the origin exact where an
      effect is asked for, and a proposal begins as JSON to a host that listens. */
  lemma HonouredExactly(workspace: WorkspaceId, directory: Directory, now: nat, events: seq<Event>, k: nat)
    requires k < |events|
    requires var e := events[k]; e.Reads? || e.Effects? || e.LogsOut? || e.ProposalStarts? || e.ProposalBody?
    ensures var start := Fresh(workspace, directory, now);
            var s, e := At(start, events, k), events[k];
            Honours(s, e) <==>
              && e.look.approved && s.port != 0
              && (!e.Reads? ==> e.credential.originIsExact)
              && (e.ProposalStarts? ==> e.credential.json && s.listening)
              && (e.ProposalBody? ==> e.readable)
              && e.credential.cookie.Some?
              && exists j: nat :: PairedSince(start, events, j, k, e.credential.cookie.value)
                                  && e.look.now < events[j].look.now + 28_800_000
  {
    hide After, Ends, Redeems;
    var start := Fresh(workspace, directory, now);
    var s, e := At(start, events, k), events[k];
    EveryMomentIsTimed(workspace, directory, now, events, k);
    HonoursExactly(s, e);
    if s.sessionsUntil > 0 {
      var j: nat :| PairedSince(start, events, j, k, s.generation)
                    && s.sessionsUntil == events[j].look.now + 28_800_000;
    }
  }

  lemma HonoursExactly(s: Session, e: Event)
    requires e.Reads? || e.Effects? || e.LogsOut? || e.ProposalStarts? || e.ProposalBody?
    ensures Honours(s, e) <==>
              && e.look.approved && s.port != 0
              && (!e.Reads? ==> e.credential.originIsExact)
              && (e.ProposalStarts? ==> e.credential.json && s.listening)
              && (e.ProposalBody? ==> e.readable)
              && e.look.now < s.sessionsUntil && e.credential.cookie == Some(s.generation)
  {
  }

  ghost predicate RedeemsAt(start: Session, events: seq<Event>, j: nat, g: nat) {
    j < |events| && events[j].PairBody? && Redeems(At(start, events, j), events[j]) && events[j].code == Some(g)
  }

  /** Every redemption in the record was made by a pairing request that showed the
      code of that very pairing, in time. */
  lemma {:induction false} RedemptionsShowedTheCode(workspace: WorkspaceId, directory: Directory, now: nat,
                                                    events: seq<Event>, i: nat)
    requires i < |After(Fresh(workspace, directory, now), events).log|
    requires After(Fresh(workspace, directory, now), events).log[i].Redeemed?
    ensures var start := Fresh(workspace, directory, now);
            var g := After(start, events).log[i].generation;
            exists j: nat :: RedeemsAt(start, events, j, g)
                             && |At(start, events, j).log| <= i < |At(start, events, j + 1).log|
    decreases |events|
  {
    hide Redeems, Step;
    var start := Fresh(workspace, directory, now);
    if events != [] {
      var n := |events| - 1;
      assert events == events[..n] + [events[n]];
      AfterAppend(start, events[..n], events[n]);
      var s := After(start, events[..n]);
      StepLogs(s, events[n]);
      if i < |s.log| {
        RedemptionsShowedTheCode(workspace, directory, now, events[..n], i);
        var j: nat :| RedeemsAt(start, events[..n], j, s.log[i].generation)
                      && |At(start, events[..n], j).log| <= i < |At(start, events[..n], j + 1).log|;
        assert events[..n][..j] == events[..j] && events[..n][..j + 1] == events[..j + 1];
        assert At(start, events, j) == At(start, events[..n], j) && At(start, events, j + 1) == At(start, events[..n], j + 1);
        assert RedeemsAt(start, events, j, s.log[i].generation);
      } else {
        assert events[..n + 1] == events;
        assert At(start, events, n) == s && At(start, events, n + 1) == After(start, events);
        assert RedeemsAt(start, events, n, s.generation);
      }
    }
  }

  /** A step extends the log; it records a redemption only when it makes one. */
  ghost predicate LogsRedemption(s: Session, e: Event, v: Session) {
    && s.log <= v.log
    && forall i :: |s.log| <= i < |v.log| && v.log[i].Redeemed? ==>
         e.PairBody? && Redeems(s, e) && v.log[i] == Redeemed(s.generation) && e.code == Some(s.generation)
  }

  lemma StepLogs(s: Session, e: Event)
    ensures LogsRedemption(s, e, Step(s, e))
  {
    hide Redeems, LogsRedemption, Step;
    if FromBrowser(e) {
      BrowserLogs(s, e);
    } else if e.Approves? || e.Rotates? {
      HostLogs(s, e);
    } else {
      OtherLogs(s, e);
    }
  }

  lemma BrowserLogs(s: Session, e: Event)
    requires FromBrowser(e)
    ensures LogsRedemption(s, e, Step(s, e))
  {
    hide Revoke, IsSession, ProposalLimits;
    ChecksEnd(s, e.credential, e.look);
    RevokeEnds(s);
    RevokeEnds(Log(s, Accepted(e.credential.cookie)));
  }

  lemma OtherLogs(s: Session, e: Event)
    requires !FromBrowser(e) && !e.Approves? && !e.Rotates?
    ensures LogsRedemption(s, e, Step(s, e))
  {
    hide Revoke, StillPending;
    RevokeEnds(s);
  }

  lemma HostLogs(s: Session, e: Event)
    requires e.Approves? || e.Rotates?
    ensures LogsRedemption(s, e, Step(s, e))
  {
    hide Rotated;
    if e.found.Some? {
      if e.Rotates? {
        RotatedLogs(s, e.workspace, e.found.value, e.look.now);
      } else if s.pending.Some? {
        RotatedLogs(s, s.pending.value.workspace, e.found.value, e.again.now);
      }
    }
  }

  lemma RotatedLogs(s: Session, workspace: WorkspaceId, directory: Directory, now: nat)
    ensures Rotated(s, workspace, directory, now).log == s.log + [Revoked]
  {
  }

  // ---------- Leases ----------

  /** A timed session holds a lease of its own that is not aborted. */
  ghost predicate LeaseFresh(s: Session) {
    && s.lease < s.leases && (forall l :: l in s.aborted ==> l < s.leases)
    && (s.sessionsUntil > 0 ==> s.used && s.lease !in s.aborted)
  }

  lemma StepKeepsLeaseFresh(s: Session, e: Event)
    requires LeaseFresh(s)
    ensures LeaseFresh(Step(s, e))
  {
    hide Step, Ends;
    EndsExactly(s, e);
    assert Redeems(s, e) ==> !s.used;
  }

  lemma {:induction false} EveryLeaseIsFresh(workspace: WorkspaceId, directory: Directory, now: nat,
                                             events: seq<Event>, k: nat)
    requires k <= |events|
    ensures LeaseFresh(At(Fresh(workspace, directory, now), events, k))
  {
    hide Step;
    var start := Fresh(workspace, directory, now);
    if k == 0 {
      StartsAt(start, events);
    } else {
      EveryLeaseIsFresh(workspace, directory, now, events, k - 1);
      AtNext(start, events, k - 1);
      StepKeepsLeaseFresh(At(start, events, k - 1), events[k - 1]);
    }
  }

  /** An effect that is let through at event k runs under a lease that is aborted at
      a later moment exactly if an event since then ended the session. */
  lemma {:induction false} LeasesEndExactly(workspace: WorkspaceId, directory: Directory, now: nat,
                                            events: seq<Event>, k: nat, n: nat)
    requires k <= n <= |events| && k < |events| && events[k].Effects?
    requires var s := At(Fresh(workspace, directory, now), events, k);
             ActiveSignal(s, events[k].credential, events[k].look).lease.Some?
    ensures var start := Fresh(workspace, directory, now);
            var lease := ActiveSignal(At(start, events, k), events[k].credential, events[k].look).lease.value;
            && (lease in At(start, events, n).aborted
                <==> exists m :: k <= m < n && Ends(At(start, events, m), events[m]))
            && (lease !in At(start, events, n).aborted ==> At(start, events, n).lease == lease && At(start, events, n).used)
  {
    hide After, Step, Ends, Redeems;
    var start := Fresh(workspace, directory, now);
    AuthorisedExactly(At(start, events, k), events[k].credential, events[k].look);
    EveryLeaseIsFresh(workspace, directory, now, events, k);
    if n > k {
      LeasesEndExactly(workspace, directory, now, events, k, n - 1);
      AtNext(start, events, n - 1);
      EndsExactly(At(start, events, n - 1), events[n - 1]);
      StepTimes(At(start, events, n - 1), events[n - 1]);
    }
  }

  // ---------- Proposals ----------

  /** The event made this proposal. */
  predicate Proposes(s: Session, e: Event, p: Proposal) {
    && e.ProposalBody? && Honours(s, e) && s.requestCount < 5 && e.hostListens
    && e.target == Some(p.workspace) && p.workspace != s.workspace && e.found == Some(p.directory)
    && e.look.now == p.at && p.id == s.proposals
  }

  /** The host's denial of it, in time. */
  predicate Refuses(e: Event, p: Proposal) {
    e.Denies? && e.id == p.id && e.now - p.at <= 90_000
  }

  /** Event m proposed it; since then nothing ended that session and the host did not
      deny it. */
  ghost predicate ProposedSince(start: Session, events: seq<Event>, m: nat, k: nat, p: Proposal)
    requires k <= |events|
  {
    && m < k && Proposes(At(start, events, m), events[m], p)
    && forall n :: m < n < k ==> !Ends(At(start, events, n), events[n]) && !Refuses(events[n], p)
  }

  lemma PendingStep(s: Session, e: Event)
    ensures var v := Step(s, e);
            v.pending.Some? && v.pending.value.state == Pending ==>
              || Proposes(s, e, v.pending.value)
              || (v.pending == s.pending && !Ends(s, e) && !Refuses(e, v.pending.value))
  {
    hide Ends, Step;
    EndsExactly(s, e);
    if !Ends(s, e) {
      if e.ProposalBody? {
        ProposalStep(s, e);
      } else {
        OtherPendingStep(s, e);
      }
    }
  }

  lemma ProposalStep(s: Session, e: Event)
    requires e.ProposalBody?
    ensures Step(s, e).pending == s.pending || Step(s, e).pending.None? || Proposes(s, e, Step(s, e).pending.value)
  {
    hide Revoke, IsSession, StillPending;
    ChecksEnd(s, e.credential, e.look);
    RevokeEnds(s);
  }

  lemma OtherPendingStep(s: Session, e: Event)
    requires !e.ProposalBody? && !Ends(s, e)
    ensures var v := Step(s, e);
            || v.pending.None?
            || (v.pending == s.pending && !(e.Denies? && v.pending.value.state == Pending && Refuses(e, v.pending.value)))
            || v.pending.value.state == Denied
  {
    hide Revoke, IsSession, Rotated;
    if FromBrowser(e) {
      ChecksEnd(s, e.credential, e.look);
      RevokeEnds(s);
    }
  }

  lemma ProposedLater(start: Session, events: seq<Event>, m: nat, k: nat, p: Proposal)
    requires k < |events|
    ensures ProposedSince(start, events, m, k + 1, p)
            <==> if m == k then Proposes(At(start, events, k), events[k], p)
                 else ProposedSince(start, events, m, k, p)
                      && !Ends(At(start, events, k), events[k]) && !Refuses(events[k], p)
  {
    hide At, Proposes, Ends;
  }

  lemma {:induction false} PendingWasProposed(start: Session, events: seq<Event>, k: nat)
    requires k <= |events| && start.pending.None?
    ensures var pending := At(start, events, k).pending;
            pending.Some? && pending.value.state == Pending ==>
              exists m: nat :: ProposedSince(start, events, m, k, pending.value)
  {
    hide Proposes, Ends, Step, After, Refuses;
    if k == 0 {
      StartsAt(start, events);
    } else {
      PendingWasProposed(start, events, k - 1);
      var s, v := At(start, events, k - 1), At(start, events, k);
      AtNext(start, events, k - 1);
      PendingStep(s, events[k - 1]);
      if v.pending.Some? && v.pending.value.state == Pending {
        var p := v.pending.value;
        if Proposes(s, events[k - 1], p) {
          ProposedLater(start, events, k - 1, k - 1, p);
        } else {
          var m: nat :| ProposedSince(start, events, m, k - 1, p);
          ProposedLater(start, events, m, k - 1, p);
        }
      }
    }
  }

  /** Whenever the host's approval rotates the session, it is to a workspace that the
      paired browser had proposed at most 90 seconds before, in the same session,
      under the id the host names, and that the host had not denied; the directory
      is the one captured at the proposal. */
  lemma ApprovalsWereProposed(workspace: WorkspaceId, directory: Directory, now: nat, events: seq<Event>, k: nat)
    requires k < |events| && events[k].Approves?
    requires Ends(At(Fresh(workspace, directory, now), events, k), events[k])
    ensures var start := Fresh(workspace, directory, now);
            var v := At(start, events, k + 1);
            exists m: nat, p: Proposal ::
              && ProposedSince(start, events, m, k, p) && p.id == events[k].id
              && events[k].look.now - p.at <= 90_000 && events[k].candidate == Some(p.directory)
              && v.workspace == p.workspace && Some(v.directory) == events[k].found
              && v.generation == At(start, events, k).generation + 1
  {
    hide After, Proposes, Refuses;
    var start := Fresh(workspace, directory, now);
    var s := At(start, events, k);
    PendingWasProposed(start, events, k);
    AtNext(start, events, k);
    var p := s.pending.value;
    var m: nat :| ProposedSince(start, events, m, k, p);
    assert p.id == events[k].id;
  }
}
