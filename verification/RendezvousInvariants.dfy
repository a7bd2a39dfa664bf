/**
 What every reachable state of the signaling server satisfies, and what every step keeps.
*/
module RendezvousInvariants {
  import opened Prelude
  import opened RelayPolicy
  import opened Rendezvous

  // ----- the invariant -----

  /** A waiting entry's receiver is an unpaired receiver registered under exactly that code. */
  ghost predicate WaitingLinked(s: State) {
    forall c :: c in s.codes ==>
      var peer := At(s, s.codes[c].receiver);
      peer.role.Receiver? && peer.sid == None && peer.code == Some(c)
  }

  /** A session's two peers are different, carry its sid and play their roles. */
  ghost predicate SessionsLinked(s: State) {
    forall sid :: sid in s.sessions ==>
      var sess := s.sessions[sid];
      && sess.sid == sid
      && sess.sender != sess.receiver
      && At(s, sess.sender).role.Sender? && At(s, sess.sender).sid == Some(sid)
      && At(s, sess.receiver).role.Receiver? && At(s, sess.receiver).sid == Some(sid)
      && At(s, sess.receiver).code == Some(sess.code)
  }

  /** A peer that carries a sid is one of the two peers of that live session. */
  ghost predicate PeersLinked(s: State) {
    forall p :: p in s.peers && s.peers[p].sid.Some? ==>
      s.peers[p].sid.value in s.sessions
      && (s.sessions[s.peers[p].sid.value].sender == p || s.sessions[s.peers[p].sid.value].receiver == p)
  }

  ghost predicate Linked(s: State) { WaitingLinked(s) && SessionsLinked(s) && PeersLinked(s) }

  /** A live holder of registration `reg` agrees with its record: code, first expiry, attempt budget. */
  ghost predicate Backed(s: State, reg: RegId, code: Code, expiresAt: int, remaining: int) {
    && reg in s.registrations
    && s.registrations[reg].code == code
    && s.registrations[reg].expiresAt == expiresAt
    && remaining + s.registrations[reg].served == RECEIVER_MAX_PREPAIR_ATTEMPTS
  }

  ghost predicate CodesBacked(s: State) {
    forall c :: c in s.codes ==>
      s.codes[c].remaining > 0 && Backed(s, s.codes[c].reg, c, s.codes[c].expiresAt, s.codes[c].remaining)
  }

  ghost predicate SessionsBacked(s: State) {
    forall sid :: sid in s.sessions ==>
      var sess := s.sessions[sid];
      sess.remaining >= 0 && Backed(s, sess.reg, sess.code, sess.codeExpiresAt, sess.remaining)
  }

  /** No registration is held twice. */
  ghost predicate HoldersDistinct(s: State) {
    && (forall x, y :: x in s.sessions && y in s.sessions && s.sessions[x].reg == s.sessions[y].reg ==> x == y)
    && (forall c, x :: c in s.codes && x in s.sessions ==> s.codes[c].reg != s.sessions[x].reg)
  }

  ghost predicate ServedBounded(s: State) {
    forall r :: r in s.registrations ==> s.registrations[r].served <= RECEIVER_MAX_PREPAIR_ATTEMPTS
  }

  ghost predicate Linear(s: State) {
    CodesBacked(s) && SessionsBacked(s) && HoldersDistinct(s) && ServedBounded(s)
  }

  function DeadlineBound(sess: Session): int {
    sess.createdAt + PAKE_TIMEOUT_MS
    + (if sess.phase.pairRequested then PAIR_TIMEOUT_MS else 0)
    + (if sess.phase.pairDecided then PAIR_TIMEOUT_MS else 0)
  }

  ghost predicate LogsOrdered(s: State) {
    forall sid :: sid in s.relayed ==> Ordered(s.relayed[sid])
  }

  ghost predicate PhasesMatch(s: State) {
    forall sid :: sid in s.sessions ==>
      sid in s.relayed && Matches(s.sessions[sid].phase, s.relayed[sid])
  }

  ghost predicate DeadlinesBounded(s: State) {
    forall sid :: sid in s.sessions && s.sessions[sid].timely ==> s.sessions[sid].expiresAt <= DeadlineBound(s.sessions[sid])
  }

  ghost predicate Phased(s: State) { LogsOrdered(s) && PhasesMatch(s) && DeadlinesBounded(s) }

  ghost predicate WithinCapacity(s: State) {
    && |s.sessions| <= SIGNALING_MAX_SESSIONS
    && |s.codes| + |s.sessions| <= SIGNALING_MAX_WAITING_CODES + SIGNALING_MAX_SESSIONS
  }

  ghost predicate Inv(s: State) { Linked(s) && Linear(s) && Phased(s) && WithinCapacity(s) }

  /** The live session `sess` of state `s`. */
  ghost predicate Live(s: State, sess: Session) { sess.sid in s.sessions && s.sessions[sess.sid] == sess }

  // ----- small changes -----

  /** Same role, sid and code: the links do not see the change. */
  ghost predicate SameLinks(a: Peer, b: Peer) { a.role == b.role && a.sid == b.sid && a.code == b.code }

  lemma SetPeerLinked(s: State, p: PeerId, peer: Peer)
    requires Linked(s) && SameLinks(peer, At(s, p))
    ensures Linked(SetPeer(s, p, peer))
  {
    var t := SetPeer(s, p, peer);
    assert forall q :: SameLinks(At(t, q), At(s, q));
    assert WaitingLinked(t);
    assert SessionsLinked(t);
    assert PeersLinked(t);
  }

  /** Only `peers` differs: registrations, logs and sizes are the same. */
  lemma PeersOnly(s: State, peers: map<PeerId, Peer>)
    requires Linear(s) && Phased(s) && WithinCapacity(s)
    ensures Linear(s.(peers := peers)) && Phased(s.(peers := peers)) && WithinCapacity(s.(peers := peers))
  {
  }

  lemma SetPeerKeeps(s: State, p: PeerId, peer: Peer)
    requires Inv(s) && SameLinks(peer, At(s, p))
    ensures Inv(SetPeer(s, p, peer))
  {
    SetPeerLinked(s, p, peer);
    PeersOnly(s, s.peers[p := peer]);
  }

  lemma CloseKeeps(s: State, p: PeerId)
    requires Inv(s)
    ensures Inv(Close(s, p))
  {
    SetPeerKeeps(s, p, At(s, p).(open := false, released := true));
  }

  /** Clearing a peer that neither waits nor is paired keeps the invariant. */
  lemma ClearWaiterLinked(s: State, c: Code)
    requires Linked(s) && c in s.codes
    ensures Linked(ClearPeer(DropCode(s, c), s.codes[c].receiver))
  {
  }

  lemma DropCodeLinked(s: State, c: Code)
    requires Linked(s)
    ensures Linked(DropCode(s, c))
  {
  }

  lemma DropCodeLinear(s: State, c: Code)
    requires Linear(s)
    ensures Linear(DropCode(s, c))
  {
  }

  lemma DropCodePhased(s: State, c: Code)
    requires Phased(s) && WithinCapacity(s)
    ensures Phased(DropCode(s, c)) && WithinCapacity(DropCode(s, c))
  {
    SizeAfterRemove(s.codes, c);
  }

  lemma DropCodeKeeps(s: State, c: Code)
    requires Inv(s)
    ensures Inv(DropCode(s, c))
  {
    DropCodeLinked(s, c);
    DropCodeLinear(s, c);
    DropCodePhased(s, c);
  }

  lemma ExpireWaitingKeeps(s: State, c: Code)
    requires Inv(s) && c in s.codes
    ensures Inv(ExpireWaiting(s, c, s.codes[c].receiver))
  {
    var p := s.codes[c].receiver;
    DropCodeKeeps(s, c);
    ClearWaiterLinked(s, c);
    var t := ClearPeer(DropCode(s, c), p);
    PeersOnly(DropCode(s, c), t.peers);
    CloseKeeps(t, p);
  }

  /** A session that is dropped with both peers cleared leaves no trace. */
  function Dissolve(s: State, sess: Session): State {
    ClearPeer(ClearPeer(DropSession(s, sess.sid), sess.sender), sess.receiver)
  }

  lemma DissolveLinked(s: State, sess: Session)
    requires Linked(s) && Live(s, sess)
    ensures Linked(Dissolve(s, sess))
  {
  }

  lemma DropSessionKeeps(s: State, sid: Sid)
    requires Linear(s) && Phased(s) && WithinCapacity(s)
    ensures Linear(DropSession(s, sid)) && Phased(DropSession(s, sid)) && WithinCapacity(DropSession(s, sid))
    ensures sid in s.sessions ==> |DropSession(s, sid).sessions| == |s.sessions| - 1
  {
    SizeAfterRemove(s.sessions, sid);
  }

  lemma DissolveKeeps(s: State, sess: Session)
    requires Inv(s) && Live(s, sess)
    ensures Inv(Dissolve(s, sess))
  {
    DissolveLinked(s, sess);
    DropSessionKeeps(s, sess.sid);
    PeersOnly(DropSession(s, sess.sid), Dissolve(s, sess).peers);
  }

  lemma EndSessionKeeps(s: State, sess: Session, leaving: Side)
    requires Inv(s) && Live(s, sess)
    ensures Inv(EndSession(s, sess, leaving))
  {
    DissolveKeeps(s, sess);
    CloseKeeps(Dissolve(s, sess), SidePeer(sess, OtherSide(leaving)));
  }

  lemma CloseSessionPeersKeeps(s: State, sess: Session)
    requires Inv(s) && Live(s, sess)
    ensures Inv(CloseSessionPeers(s, sess))
  {
    DissolveKeeps(s, sess);
    var t := Dissolve(s, sess);
    CloseKeeps(t, sess.sender);
    CloseKeeps(Close(t, sess.sender), sess.receiver);
  }

  lemma DropTwice(s: State, sess: Session)
    ensures CloseSessionPeers(DropSession(s, sess.sid), sess) == CloseSessionPeers(s, sess)
  {
    assert DropSession(DropSession(s, sess.sid), sess.sid) == DropSession(s, sess.sid);
  }

  // ----- restoring a receiver -----

  /** In a linked state a paired receiver cannot also be waiting: the server's merge branch never runs. */
  lemma PairedReceiverIsNotWaiting(s: State, sess: Session, c: Code)
    requires Linked(s) && Live(s, sess) && c in s.codes
    ensures s.codes[c].receiver != sess.receiver && s.codes[c].receiver != sess.sender
  {
  }

  /** The receiver is waiting again under the session's code, with the same registration. */
  function Requeue(s: State, sess: Session): State {
    var u := Unpair(s, sess);
    u.(codes := u.codes[sess.code := Waiting(sess.receiver, sess.codeExpiresAt, sess.remaining, sess.reg)])
  }

  lemma RequeueWaiting(s: State, sess: Session)
    requires Linked(s) && Live(s, sess) && sess.code !in s.codes
    ensures WaitingLinked(Requeue(s, sess))
  {
    var t := Requeue(s, sess);
    forall c | c in s.codes
      ensures At(t, s.codes[c].receiver) == At(s, s.codes[c].receiver)
    {
      PairedReceiverIsNotWaiting(s, sess, c);
    }
  }

  lemma RequeueSessions(s: State, sess: Session)
    requires Linked(s) && Live(s, sess)
    ensures SessionsLinked(Requeue(s, sess))
  {
    var t := Requeue(s, sess);
    forall x | x in t.sessions
      ensures At(t, t.sessions[x].sender) == At(s, s.sessions[x].sender)
      ensures At(t, t.sessions[x].receiver) == At(s, s.sessions[x].receiver)
    {
    }
  }

  lemma RequeueLinked(s: State, sess: Session)
    requires Linked(s) && Live(s, sess) && sess.code !in s.codes
    ensures Linked(Requeue(s, sess))
  {
    RequeueWaiting(s, sess);
    RequeueSessions(s, sess);
    assert PeersLinked(Requeue(s, sess));
  }

  lemma RequeueLinear(s: State, sess: Session)
    requires Linear(s) && Live(s, sess) && sess.code !in s.codes && sess.remaining > 0
    ensures Linear(Requeue(s, sess))
  {
  }

  lemma RequeueKeeps(s: State, sess: Session)
    requires Inv(s) && Live(s, sess) && sess.code !in s.codes && sess.remaining > 0
    ensures Inv(Requeue(s, sess))
  {
    RequeueLinked(s, sess);
    RequeueLinear(s, sess);
    DropSessionKeeps(s, sess.sid);
    SizeAfterUpdate(s.codes, sess.code, Waiting(sess.receiver, sess.codeExpiresAt, sess.remaining, sess.reg));
  }

  lemma ExhaustedIsDissolved(s: State, sess: Session)
    requires Linked(s) && Live(s, sess) && sess.code !in s.codes
    ensures ExpireReceiverAfterPrePairAttempts(Unpair(s, sess), sess, false)
         == Close(Close(Dissolve(s, sess), sess.sender), sess.receiver)
  {
    assert ClearPeer(ClearPeer(Unpair(s, sess), sess.sender), sess.receiver).peers == Dissolve(s, sess).peers;
  }

  lemma RestoreKeeps(s: State, sess: Session)
    requires Inv(s) && Live(s, sess)
    ensures Inv(RestoreWaitingReceiver(s, sess))
  {
    if sess.code in s.codes {
      PairedReceiverIsNotWaiting(s, sess, sess.code);
      DropTwice(s, sess);
      CloseSessionPeersKeeps(s, sess);
    } else if !CanRestorePrePairCode(sess.remaining) {
      ExhaustedIsDissolved(s, sess);
      DissolveKeeps(s, sess);
      CloseKeeps(Dissolve(s, sess), sess.sender);
      CloseKeeps(Close(Dissolve(s, sess), sess.sender), sess.receiver);
    } else {
      RequeueKeeps(s, sess);
      var t := Close(Requeue(s, sess), sess.sender);
      CloseKeeps(Requeue(s, sess), sess.sender);
      if !At(t, sess.receiver).open {
        ExpireWaitingKeeps(t, sess.code);
      }
    }
  }

  // ----- message handlers -----

  lemma BadMessageKeeps(s: State, p: PeerId)
    requires Inv(s)
    ensures Inv(BadMessage(s, p))
  {
    if At(s, p).sid.Some? && At(s, p).sid.value in s.sessions
       && SenderCanRestoreReceiver(s.sessions[At(s, p).sid.value], p) {
      BadMessageRestores(s, p);
    } else {
      BadMessageCounted(s, p);
    }
  }

  lemma BadMessageRestores(s: State, p: PeerId)
    requires Inv(s) && At(s, p).sid.Some? && At(s, p).sid.value in s.sessions
    requires SenderCanRestoreReceiver(s.sessions[At(s, p).sid.value], p)
    ensures Inv(BadMessage(s, p))
  {
    RestoreByIdKeeps(s, At(s, p).sid.value);
  }

  lemma BadMessageCounted(s: State, p: PeerId)
    requires Inv(s)
    requires At(s, p).sid.None? || At(s, p).sid.value !in s.sessions
             || !SenderCanRestoreReceiver(s.sessions[At(s, p).sid.value], p)
    ensures Inv(BadMessage(s, p))
  {
    SetPeerKeeps(s, p, OneWorse(At(s, p)));
    CloseKeeps(SetPeer(s, p, OneWorse(At(s, p))), p);
  }

  /** A new waiting entry for an unpaired, not waiting peer. */
  function Enrol(s: State, p: PeerId, code: Code, expiresAt: int, reg: RegId): State {
    SetPeer(s, p, At(s, p).(role := Receiver, code := Some(code)))
      .(codes := s.codes[code := Waiting(p, expiresAt, RECEIVER_MAX_PREPAIR_ATTEMPTS, reg)],
        registrations := s.registrations[reg := Registration(code, expiresAt, 0)])
  }

  ghost predicate NotWaiting(s: State, p: PeerId) { forall c :: c in s.codes ==> s.codes[c].receiver != p }

  lemma EnrolLinked(s: State, p: PeerId, code: Code, expiresAt: int, reg: RegId)
    requires Linked(s) && NotWaiting(s, p) && At(s, p).sid.None?
    ensures Linked(Enrol(s, p, code, expiresAt, reg))
  {
    var t := Enrol(s, p, code, expiresAt, reg);
    assert WaitingLinked(t);
    assert SessionsLinked(t);
    assert PeersLinked(t);
  }

  lemma EnrolLinear(s: State, p: PeerId, code: Code, expiresAt: int, reg: RegId)
    requires Linear(s) && reg !in s.registrations
    ensures Linear(Enrol(s, p, code, expiresAt, reg))
  {
  }

  /** An unpaired peer waits under its own code or not at all. */
  lemma WaitsUnderOwnCodeOnly(s: State, p: PeerId)
    requires Linked(s)
    requires At(s, p).code.Some? ==> !OwnsCode(s, p, At(s, p).code.value)
    ensures NotWaiting(s, p)
  {
  }

  lemma RegisterKeeps(s: State, p: PeerId, code: Code, acceptable: bool, env: Env)
    requires Inv(s) && env.freshReg !in s.registrations
    ensures Inv(HandleRegister(s, p, code, acceptable, env))
  {
    var peer := At(s, p);
    if !env.attemptRateOk || peer.sid.Some? || peer.role.Sender? || !acceptable {
    } else if OwnsCode(s, p, code) {
      RegisterOwnKeeps(s, p, code, acceptable, env);
    } else if code !in s.codes {
      EnrolmentKeeps(s, p, code, env);
    }
  }

  lemma RegisterOwnKeeps(s: State, p: PeerId, code: Code, acceptable: bool, env: Env)
    requires Inv(s) && OwnsCode(s, p, code)
    ensures Inv(HandleRegister(s, p, code, acceptable, env))
  {
    ExpireWaitingKeeps(s, code);
    SetPeerKeeps(s, p, At(s, p).(role := Receiver, code := Some(code)));
  }

  lemma EnrolKeeps(s: State, p: PeerId, code: Code, expiresAt: int, reg: RegId)
    requires Inv(s) && NotWaiting(s, p) && At(s, p).sid.None? && code !in s.codes && reg !in s.registrations
    requires |s.codes| < SIGNALING_MAX_WAITING_CODES
             || |s.codes| + |s.sessions| < SIGNALING_MAX_WAITING_CODES + SIGNALING_MAX_SESSIONS
    ensures Inv(Enrol(s, p, code, expiresAt, reg))
  {
    EnrolLinked(s, p, code, expiresAt, reg);
    EnrolLinear(s, p, code, expiresAt, reg);
    SizeAfterUpdate(s.codes, code, Waiting(p, expiresAt, RECEIVER_MAX_PREPAIR_ATTEMPTS, reg));
  }

  predicate ReplacesOwnCode(s: State, p: PeerId, code: Code) {
    At(s, p).code.Some? && At(s, p).code.value != code && OwnsCode(s, p, At(s, p).code.value)
  }

  function FreeOwnCode(s: State, p: PeerId, code: Code): State {
    if ReplacesOwnCode(s, p, code) then DropCode(s, At(s, p).code.value) else s
  }

  lemma EnrolmentIsEnrol(s: State, p: PeerId, code: Code, env: Env)
    requires env.attemptRateOk && At(s, p).sid.None? && !At(s, p).role.Sender? && code !in s.codes
    ensures HandleRegister(s, p, code, true, env) ==
              if !CanRegisterWaitingCode(|s.codes|, ReplacesOwnCode(s, p, code)) then s
              else Enrol(FreeOwnCode(s, p, code), p, code, env.now + CODE_TTL_MS, env.freshReg)
  {
  }

  lemma EnrolmentKeeps(s: State, p: PeerId, code: Code, env: Env)
    requires Inv(s) && env.freshReg !in s.registrations
    requires env.attemptRateOk && At(s, p).sid.None? && !At(s, p).role.Sender? && code !in s.codes
    ensures Inv(HandleRegister(s, p, code, true, env))
  {
    EnrolmentIsEnrol(s, p, code, env);
    FreeOwnCodeKeeps(s, p, code);
    if CanRegisterWaitingCode(|s.codes|, ReplacesOwnCode(s, p, code)) {
      EnrolKeeps(FreeOwnCode(s, p, code), p, code, env.now + CODE_TTL_MS, env.freshReg);
    }
  }

  /** Replacing the peer's own waiting entry frees the slot the new one takes. */
  lemma FreeOwnCodeKeeps(s: State, p: PeerId, code: Code)
    requires Inv(s) && code !in s.codes
    ensures var s1 := FreeOwnCode(s, p, code);
            && Inv(s1) && NotWaiting(s1, p) && s1.peers == s.peers && s1.registrations == s.registrations
            && code !in s1.codes
            && |s1.codes| == |s.codes| - (if ReplacesOwnCode(s, p, code) then 1 else 0)
            && s1.sessions == s.sessions
  {
    if ReplacesOwnCode(s, p, code) {
      var own := At(s, p).code.value;
      DropCodeKeeps(s, own);
      SizeAfterRemove(s.codes, own);
      WaitsUnderOwnCodeOnly(DropCode(s, own), p);
    } else {
      WaitsUnderOwnCodeOnly(s, p);
    }
  }

  // ----- connect -----

  /** Peers and maps after a claim, without the branch that drops a stale own code (it never runs). */
  function Claim(s: State, p: PeerId, code: Code, env: Env): State
    requires code in s.codes
  {
    OpenSession(s, p, code, s.codes[code], env).0
  }

  ghost predicate CanClaim(s: State, p: PeerId, code: Code, env: Env) {
    && code in s.codes
    && s.codes[code].receiver != p
    && At(s, p).sid.None? && !At(s, p).role.Receiver?
    && env.freshSid !in s.relayed
  }

  lemma FreshSidNotLive(s: State, sid: Sid)
    requires Phased(s) && sid !in s.relayed
    ensures sid !in s.sessions
  {
  }

  lemma ClaimCodes(s: State, p: PeerId, code: Code, env: Env)
    requires Linked(s) && CanClaim(s, p, code, env)
    ensures Claim(s, p, code, env).codes == s.codes - {code}
    ensures NotWaiting(s, p)
  {
    assert forall c :: c in s.codes ==> At(s, s.codes[c].receiver).role.Receiver?;
  }

  lemma ClaimPeers(s: State, p: PeerId, code: Code, env: Env)
    requires Linked(s) && CanClaim(s, p, code, env)
    ensures var t := Claim(s, p, code, env);
            var r := s.codes[code].receiver;
            && At(t, p) == At(s, p).(role := Sender, sid := Some(env.freshSid), code := Some(code))
            && At(t, r) == At(s, r).(sid := Some(env.freshSid))
            && (forall q :: q != p && q != r ==> At(t, q) == At(s, q))
  {
    ClaimCodes(s, p, code, env);
  }

  lemma ClaimSession(s: State, p: PeerId, code: Code, env: Env)
    requires Linked(s) && CanClaim(s, p, code, env)
    ensures var t := Claim(s, p, code, env);
            var w := s.codes[code];
            t.sessions == s.sessions[env.freshSid :=
              Session(env.freshSid, code, w.expiresAt, p, w.receiver, InitialSessionExpiresAt(env.now),
                      INITIAL_PHASE, w.remaining - 1, w.reg, env.now, true)]
            && t.relayed == s.relayed[env.freshSid := []]
            && t.registrations == s.registrations[w.reg := Served(s, w.reg)]
  {
    ClaimCodes(s, p, code, env);
  }

  lemma ClaimWaiting(s: State, p: PeerId, code: Code, env: Env)
    requires Linked(s) && CanClaim(s, p, code, env)
    ensures WaitingLinked(Claim(s, p, code, env))
  {
    ClaimCodes(s, p, code, env);
    ClaimPeers(s, p, code, env);
    var t := Claim(s, p, code, env);
    forall c | c in t.codes
      ensures At(t, t.codes[c].receiver) == At(s, s.codes[c].receiver)
    {
      assert s.codes[c].receiver != s.codes[code].receiver;
    }
  }

  lemma ClaimSessions(s: State, p: PeerId, code: Code, env: Env)
    requires Linked(s) && CanClaim(s, p, code, env) && env.freshSid !in s.sessions
    ensures SessionsLinked(Claim(s, p, code, env))
  {
    ClaimPeers(s, p, code, env);
    ClaimSession(s, p, code, env);
    var t := Claim(s, p, code, env);
    forall x | x in s.sessions
      ensures t.sessions[x] == s.sessions[x]
      ensures At(t, s.sessions[x].sender) == At(s, s.sessions[x].sender)
      ensures At(t, s.sessions[x].receiver) == At(s, s.sessions[x].receiver)
    {
    }
  }

  lemma ClaimPeersLinked(s: State, p: PeerId, code: Code, env: Env)
    requires Linked(s) && CanClaim(s, p, code, env) && env.freshSid !in s.sessions
    ensures PeersLinked(Claim(s, p, code, env))
  {
    ClaimPeers(s, p, code, env);
    ClaimSession(s, p, code, env);
    var t := Claim(s, p, code, env);
    forall q | q in t.peers && t.peers[q].sid.Some?
      ensures t.peers[q].sid.value in t.sessions
      ensures t.sessions[t.peers[q].sid.value].sender == q || t.sessions[t.peers[q].sid.value].receiver == q
    {
      assert At(t, q) == t.peers[q];
      if q != p && q != s.codes[code].receiver {
        assert At(t, q) == At(s, q);
        assert q in s.peers;
      }
    }
  }

  /** What the claim does not touch, and that none of it holds the claimed registration. */
  lemma ClaimOthers(s: State, p: PeerId, code: Code, env: Env)
    requires Linked(s) && Linear(s) && CanClaim(s, p, code, env) && env.freshSid !in s.sessions
    ensures var t, w := Claim(s, p, code, env), s.codes[code];
            && (forall c :: c in t.codes ==> c in s.codes && t.codes[c] == s.codes[c] && s.codes[c].reg != w.reg)
            && (forall x :: x in s.sessions ==> x in t.sessions && t.sessions[x] == s.sessions[x] && s.sessions[x].reg != w.reg)
  {
    ClaimCodes(s, p, code, env);
    ClaimSession(s, p, code, env);
  }

  lemma ClaimBacked(s: State, p: PeerId, code: Code, env: Env)
    requires Linked(s) && Linear(s) && CanClaim(s, p, code, env) && env.freshSid !in s.sessions
    ensures CodesBacked(Claim(s, p, code, env)) && SessionsBacked(Claim(s, p, code, env))
  {
    ClaimCodes(s, p, code, env);
    ClaimSession(s, p, code, env);
    ClaimOthers(s, p, code, env);
  }

  lemma ClaimLinear(s: State, p: PeerId, code: Code, env: Env)
    requires Linked(s) && Linear(s) && CanClaim(s, p, code, env) && env.freshSid !in s.sessions
    ensures Linear(Claim(s, p, code, env))
  {
    ClaimCodes(s, p, code, env);
    ClaimSession(s, p, code, env);
    ClaimOthers(s, p, code, env);
    ClaimBacked(s, p, code, env);
    assert HoldersDistinct(Claim(s, p, code, env));
  }

  lemma ClaimPhased(s: State, p: PeerId, code: Code, env: Env)
    requires Linked(s) && Phased(s) && CanClaim(s, p, code, env)
    ensures Phased(Claim(s, p, code, env))
  {
    ClaimSession(s, p, code, env);
    FreshSidNotLive(s, env.freshSid);
    assert Matches(INITIAL_PHASE, []);
    assert Ordered([]);
    var t := Claim(s, p, code, env);
    assert LogsOrdered(t);
    assert PhasesMatch(t);
    assert DeadlinesBounded(t);
  }

  lemma ClaimKeeps(s: State, p: PeerId, code: Code, env: Env)
    requires Inv(s) && CanClaim(s, p, code, env) && CanCreateSession(|s.sessions|)
    ensures Inv(Claim(s, p, code, env))
    ensures Live(Claim(s, p, code, env), OpenSession(s, p, code, s.codes[code], env).1)
  {
    FreshSidNotLive(s, env.freshSid);
    ClaimWaiting(s, p, code, env);
    ClaimSessions(s, p, code, env);
    ClaimPeersLinked(s, p, code, env);
    ClaimLinear(s, p, code, env);
    ClaimPhased(s, p, code, env);
    ClaimSizes(s, p, code, env);
  }

  lemma ClaimSizes(s: State, p: PeerId, code: Code, env: Env)
    requires Linked(s) && WithinCapacity(s) && CanClaim(s, p, code, env)
    requires CanCreateSession(|s.sessions|) && env.freshSid !in s.sessions
    ensures WithinCapacity(Claim(s, p, code, env))
    ensures Live(Claim(s, p, code, env), OpenSession(s, p, code, s.codes[code], env).1)
  {
    var t := Claim(s, p, code, env);
    ClaimCodes(s, p, code, env);
    ClaimSession(s, p, code, env);
    SizeAfterRemove(s.codes, code);
    SizeAfterUpdate(s.sessions, env.freshSid, t.sessions[env.freshSid]);
  }

  lemma AnnounceKeeps(s: State, sess: Session)
    requires Inv(s) && Live(s, sess)
    ensures Inv(AnnounceSession(s, sess))
  {
    if !At(s, sess.receiver).open {
      EndSessionKeeps(s, sess, SenderSide);
    } else if !At(s, sess.sender).open {
      RestoreKeeps(s, sess);
    }
  }

  lemma ConnectKeeps(s: State, p: PeerId, code: Code, acceptable: bool, env: Env)
    requires Inv(s) && env.freshSid !in s.relayed
    ensures Inv(HandleConnect(s, p, code, acceptable, env))
  {
    var peer := At(s, p);
    if env.attemptRateOk && peer.sid.None? && !peer.role.Receiver? && acceptable && code in s.codes {
      var w := s.codes[code];
      if !WaitingReceiverAvailable(w.expiresAt, env.now, At(s, w.receiver).open) || !CanRestorePrePairCode(w.remaining) {
        ExpireWaitingKeeps(s, code);
      } else if w.receiver == p {
        BadMessageKeeps(s, p);
      } else if CanCreateSession(|s.sessions|) {
        ClaimKeeps(s, p, code, env);
        AnnounceKeeps(Claim(s, p, code, env), OpenSession(s, p, code, w, env).1);
      }
    }
  }

  // ----- relay -----

  /** Delivering an allowed message and advancing the phase keeps the invariant. */
  lemma ForwardPhased(s: State, sess: Session, from: Side, kind: Kind, now: int)
    requires Phased(s) && SessionsLinked(s) && Live(s, sess) && !kind.PairReject?
    requires AllowedForRole(from, kind) && AllowedForPhase(sess.phase, from, kind)
    ensures Phased(Advance(Delivered(s, sess, from, kind), sess, from, kind, now))
  {
    var t := Advance(Delivered(s, sess, from, kind), sess, from, kind, now);
    var log := s.relayed[sess.sid];
    AllowedExactlyWhenMayFollow(sess.phase, log, from, kind);
    AppendKeepsOrdered(log, Relayed(from, kind));
    ApplyKeepsMatches(sess.phase, log, from, kind);
    assert LogsOrdered(t);
    assert PhasesMatch(t);
    DeadlineAdvances(sess, from, kind, now);
    assert DeadlinesBounded(t);
  }

  lemma DeadlineAdvances(sess: Session, from: Side, kind: Kind, now: int)
    requires sess.timely ==> sess.expiresAt <= DeadlineBound(sess)
    requires AllowedForRole(from, kind) && AllowedForPhase(sess.phase, from, kind)
    ensures var next := sess.(phase := Apply(sess.phase, from, kind),
                              expiresAt := NextSessionExpiresAt(sess.expiresAt, now, kind),
                              timely := sess.timely && now <= sess.expiresAt);
            next.timely ==> next.expiresAt <= DeadlineBound(next)
  {
  }

  lemma ForwardLinked(s: State, sess: Session, from: Side, kind: Kind, now: int)
    requires Linked(s) && Live(s, sess)
    ensures Linked(Advance(Delivered(s, sess, from, kind), sess, from, kind, now))
  {
    var t := Advance(Delivered(s, sess, from, kind), sess, from, kind, now);
    assert WaitingLinked(t);
    assert SessionsLinked(t);
    assert PeersLinked(t);
  }

  lemma ForwardLinear(s: State, sess: Session, from: Side, kind: Kind, now: int)
    requires Linear(s) && Live(s, sess)
    ensures Linear(Advance(Delivered(s, sess, from, kind), sess, from, kind, now))
  {
    var t := Advance(Delivered(s, sess, from, kind), sess, from, kind, now);
    assert CodesBacked(t);
    assert SessionsBacked(t);
    assert HoldersDistinct(t);
  }

  lemma ForwardKeeps(s: State, sess: Session, from: Side, kind: Kind, now: int)
    requires Inv(s) && Live(s, sess) && !kind.PairReject?
    requires AllowedForRole(from, kind) && AllowedForPhase(sess.phase, from, kind)
    ensures Inv(Advance(Delivered(s, sess, from, kind), sess, from, kind, now))
  {
    ForwardLinked(s, sess, from, kind, now);
    ForwardLinear(s, sess, from, kind, now);
    ForwardPhased(s, sess, from, kind, now);
    SizeAfterUpdate(s.sessions, sess.sid, sess);
    assert WithinCapacity(Advance(Delivered(s, sess, from, kind), sess, from, kind, now)) by {
      var t := Advance(Delivered(s, sess, from, kind), sess, from, kind, now);
      SizeAfterUpdate(s.sessions, sess.sid, t.sessions[sess.sid]);
    }
  }

  /** A last message is delivered, then the session is closed: the log stays ordered, nothing else is new. */
  function CloseAfter(s: State, sess: Session, from: Side, kind: Kind): State {
    CloseSessionPeers(Delivered(s, sess, from, kind), sess)
  }

  lemma LogAppendOrdered(s: State, sess: Session, from: Side, kind: Kind)
    requires Phased(s) && Live(s, sess)
    requires AllowedForRole(from, kind) && AllowedForPhase(sess.phase, from, kind)
    ensures LogsOrdered(Delivered(s, sess, from, kind))
  {
    var log := s.relayed[sess.sid];
    AllowedExactlyWhenMayFollow(sess.phase, log, from, kind);
    AppendKeepsOrdered(log, Relayed(from, kind));
  }

  lemma CloseAfterKeeps(s: State, sess: Session, from: Side, kind: Kind)
    requires Inv(s) && Live(s, sess)
    requires AllowedForRole(from, kind) && AllowedForPhase(sess.phase, from, kind)
    ensures Inv(CloseAfter(s, sess, from, kind))
  {
    LogAppendOrdered(s, sess, from, kind);
    CloseSessionPeersKeeps(s, sess);
    CloseAfterIsClosed(s, sess, from, kind);
    LogOfDeadSession(CloseSessionPeers(s, sess), sess.sid, Delivered(s, sess, from, kind).relayed);
  }

  lemma CloseAfterIsClosed(s: State, sess: Session, from: Side, kind: Kind)
    ensures CloseAfter(s, sess, from, kind)
         == CloseSessionPeers(s, sess).(relayed := Delivered(s, sess, from, kind).relayed)
    ensures CloseSessionPeers(s, sess).relayed == s.relayed
    ensures sess.sid !in CloseSessionPeers(s, sess).sessions
  {
  }

  /** Links and registrations do not depend on the logs. */
  lemma LogsApart(s: State, logs: map<Sid, seq<Relayed>>)
    requires Linked(s) && Linear(s)
    ensures Linked(s.(relayed := logs)) && Linear(s.(relayed := logs))
  {
  }

  lemma LogOfDeadSession(s: State, sid: Sid, logs: map<Sid, seq<Relayed>>)
    requires Inv(s) && sid !in s.sessions
    requires forall x :: x in s.relayed && x != sid ==> x in logs && logs[x] == s.relayed[x]
    requires forall x :: x in logs ==> Ordered(logs[x])
    ensures Inv(s.(relayed := logs))
  {
    LogsApart(s, logs);
    assert PhasesMatch(s.(relayed := logs));
  }

  lemma RejectRelayKeeps(s: State, sess: Session, p: PeerId)
    requires Inv(s) && Live(s, sess)
    ensures Inv(RejectRelayMessage(s, sess, p))
  {
    if SenderCanRestoreReceiver(sess, p) {
      RestoreKeeps(s, sess);
    } else {
      BadMessageKeeps(s, p);
    }
  }

  lemma DeliveryFailedKeeps(s: State, sess: Session, target: Side, restoreOnSenderFailure: bool)
    requires Inv(s) && Live(s, sess)
    ensures Inv(RelayDeliveryFailed(s, sess, target, restoreOnSenderFailure))
  {
    if restoreOnSenderFailure && target.SenderSide? && BeforePairAcceptance(sess) {
      RestoreKeeps(s, sess);
    } else {
      EndSessionKeeps(s, sess, target);
    }
  }

  lemma RelayAcceptKeeps(s: State, sess: Session, from: Side, env: Env)
    requires Inv(s) && Live(s, sess)
    requires AllowedForRole(from, PairAccept) && AllowedForPhase(sess.phase, from, PairAccept)
    ensures Inv(RelayAccept(s, sess, from, env))
  {
    CloseSessionPeersKeeps(s, sess);
    DeliveryFailedKeeps(s, sess, OtherSide(from), true);
    CloseAfterKeeps(s, sess, from, PairAccept);
    ForwardKeeps(s, sess, from, PairAccept, env.now);
  }

  lemma RejectEndsSession(s: State, sess: Session, from: Side, now: int)
    ensures CloseSessionPeers(Advance(Delivered(s, sess, from, PairReject), sess, from, PairReject, now), sess)
         == CloseAfter(s, sess, from, PairReject)
  {
    assert Advance(Delivered(s, sess, from, PairReject), sess, from, PairReject, now).sessions - {sess.sid}
        == s.sessions - {sess.sid};
  }

  lemma RelayKeeps(s: State, p: PeerId, sid: Sid, kind: Kind, manifestOk: bool, env: Env)
    requires Inv(s)
    ensures Inv(HandleRelay(s, p, sid, kind, manifestOk, env))
  {
    if sid in s.sessions && (s.sessions[sid].sender == p || s.sessions[sid].receiver == p) {
      var sess := s.sessions[sid];
      assert Live(s, sess);
      LiveRelayKeeps(s, sess, p, kind, manifestOk, env);
    }
  }

  lemma LiveRelayKeeps(s: State, sess: Session, p: PeerId, kind: Kind, manifestOk: bool, env: Env)
    requires Inv(s) && Live(s, sess) && (sess.sender == p || sess.receiver == p)
    ensures Inv(HandleRelay(s, p, sess.sid, kind, manifestOk, env))
  {
    var from := SideOf(sess, p);
    if (kind.PairRequest? && !manifestOk) || !AllowedForRole(from, kind) || !AllowedForPhase(sess.phase, from, kind) {
      RejectRelayKeeps(s, sess, p);
    } else if !At(s, SidePeer(sess, OtherSide(from))).open {
      DeliveryFailedKeeps(s, sess, OtherSide(from), !kind.PairReject?);
    } else if kind.PairAccept? {
      RelayAcceptKeeps(s, sess, from, env);
    } else if kind.PairReject? {
      RejectEndsSession(s, sess, from, env.now);
      CloseAfterKeeps(s, sess, from, kind);
    } else {
      ForwardKeeps(s, sess, from, kind, env.now);
    }
  }

  // ----- leaving -----

  lemma CleanupKeeps(s: State, p: PeerId)
    requires Inv(s)
    ensures Inv(CleanupPeer(s, p))
  {
    var code := At(s, p).code;
    var s1 := if code.Some? && OwnsCode(s, p, code.value) then DropCode(s, code.value) else s;
    if code.Some? && OwnsCode(s, p, code.value) {
      DropCodeKeeps(s, code.value);
    }
    LeaveSessionKeeps(s1, p);
  }

  lemma LeaveSessionKeeps(s: State, p: PeerId)
    requires Inv(s)
    ensures Inv(LeaveSession(s, p))
  {
    if At(s, p).sid.Some? && At(s, p).sid.value in s.sessions {
      var sess := s.sessions[At(s, p).sid.value];
      if SenderCanRestoreReceiver(sess, p) {
        RestoreByIdKeeps(s, sess.sid);
      } else {
        assert Live(s, sess);
        EndSessionKeeps(s, sess, SideOf(sess, p));
      }
    }
  }

  lemma RetryKeeps(s: State, p: PeerId, now: int)
    requires Inv(s)
    ensures RetryReceiver(s, p, now).Some? ==> Inv(RetryReceiver(s, p, now).value)
  {
    if At(s, p).sid.None? {
      RetryWaitingKeeps(s, p, now);
    } else {
      RetryPairedKeeps(s, p, now);
    }
  }

  lemma RestoreByIdKeeps(s: State, sid: Sid)
    requires Inv(s) && sid in s.sessions
    ensures Inv(RestoreWaitingReceiver(s, s.sessions[sid]))
  {
    assert s.sessions[sid].sid == sid;
    RestoreKeeps(s, s.sessions[sid]);
  }

  lemma RetryWaitingKeeps(s: State, p: PeerId, now: int)
    requires Inv(s) && At(s, p).sid.None?
    ensures RetryReceiver(s, p, now).Some? ==> Inv(RetryReceiver(s, p, now).value)
  {
    var code := At(s, p).code;
    if code.Some? && OwnsCode(s, p, code.value) {
      ExpireWaitingKeeps(s, code.value);
    }
  }

  lemma RetryIsRestore(s: State, p: PeerId, now: int)
    requires At(s, p).sid.Some?
    ensures var sid, r := At(s, p).sid.value, RetryReceiver(s, p, now);
            r.Some? ==> sid in s.sessions && r.value == RestoreWaitingReceiver(s, s.sessions[sid])
  {
  }

  lemma RetryPairedKeeps(s: State, p: PeerId, now: int)
    requires Inv(s) && At(s, p).sid.Some?
    ensures RetryReceiver(s, p, now).Some? ==> Inv(RetryReceiver(s, p, now).value)
  {
    RetryIsRestore(s, p, now);
    if RetryReceiver(s, p, now).Some? {
      RestoreByIdKeeps(s, At(s, p).sid.value);
    }
  }

  lemma ByeKeeps(s: State, p: PeerId, prepairRetry: bool, now: int)
    requires Inv(s)
    ensures Inv(HandleBye(s, p, prepairRetry, now))
  {
    RetryKeeps(s, p, now);
    CleanupKeeps(s, p);
    CloseKeeps(CleanupPeer(s, p), p);
  }

  lemma SweepSessionKeeps(s: State, sid: Sid, now: int)
    requires Inv(s)
    ensures Inv(SweepOneSession(s, sid, now))
  {
    if sid in s.sessions {
      var sess := s.sessions[sid];
      assert Live(s, sess);
      RestoreKeeps(s, sess);
      DropTwice(s, sess);
      CloseSessionPeersKeeps(s, sess);
    }
  }

  lemma MessageKeeps(s: State, p: PeerId, m: Message, env: Env)
    requires Inv(s) && env.freshSid !in s.relayed && env.freshReg !in s.registrations
    ensures Inv(HandleMessage(s, p, m, env))
  {
    CloseKeeps(s, p);
    match m
    case Register(code, acceptable) => RegisterKeeps(s, p, code, acceptable, env);
    case Connect(code, acceptable) => ConnectKeeps(s, p, code, acceptable, env);
    case Relay(sid, kind, manifestOk) => RelayKeeps(s, p, sid, kind, manifestOk, env);
    case Bye(prepairRetry) => ByeKeeps(s, p, prepairRetry, env.now);
    case Malformed => BadMessageKeeps(s, p);
  }

  /** Every step of the server keeps the invariant. */
  lemma StepKeeps(s: State, e: Event)
    requires Inv(s) && FreshIds(s, e)
    ensures Inv(Step(s, e))
  {
    match e
    case Arrive(p, overLimit) => ArriveKeeps(s, p);
    case IdleTimeout(p) => CloseKeeps(s, p);
    case Deliver(p, m, env) => MessageKeeps(s, p, m, env);
    case SocketCloses(p) => SetPeerKeeps(s, p, At(s, p).(open := false));
    case Disconnect(p) => DisconnectKeeps(s, p);
    case SweepCode(code, now) =>
      if code in s.codes {
        ExpireWaitingKeeps(s, code);
      }
    case SweepSession(sid, now) => SweepSessionKeeps(s, sid, now);
  }

  lemma ArriveKeeps(s: State, p: PeerId)
    requires Inv(s)
    ensures p !in s.peers ==> Inv(SetPeer(s, p, FRESH_PEER)) && Inv(Close(SetPeer(s, p, FRESH_PEER), p))
  {
    if p !in s.peers {
      SetPeerKeeps(s, p, FRESH_PEER);
      CloseKeeps(SetPeer(s, p, FRESH_PEER), p);
    }
  }

  lemma DisconnectKeeps(s: State, p: PeerId)
    requires Inv(s)
    ensures var s1 := CleanupPeer(s, p); Inv(SetPeer(s1, p, Released(At(s1, p))))
  {
    CleanupKeeps(s, p);
    var s1 := CleanupPeer(s, p);
    SetPeerKeeps(s1, p, Released(At(s1, p)));
  }
}
