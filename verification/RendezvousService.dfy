/**
 What the server does for its peers in a reachable state: exactly when a receiver waits, a
 sender is paired with it, a message is passed on, and a receiver gets its place back.
*/
module RendezvousService {
  import opened Prelude
  import opened RelayPolicy
  import opened Rendezvous
  import opened RendezvousInvariants
  import opened RendezvousEffects

  // ----- register -----

  /** The peer may wait under a code of its own that nobody uses. */
  predicate MayEnrol(s: State, p: PeerId, code: Code, acceptable: bool, env: Env) {
    && env.attemptRateOk && acceptable
    && At(s, p).sid.None? && !At(s, p).role.Sender?
    && code !in s.codes
    && (|s.codes| < SIGNALING_MAX_WAITING_CODES || (At(s, p).code.Some? && OwnsCode(s, p, At(s, p).code.value)))
  }

  /** A registration is made exactly then; the peer waits under this code only, with the full budget. */
  ghost predicate RegisterDone(s: State, t: State, p: PeerId, code: Code, acceptable: bool, env: Env) {
    && (env.freshReg in t.registrations <==> MayEnrol(s, p, code, acceptable, env))
    && (MayEnrol(s, p, code, acceptable, env) ==>
          && code in t.codes
          && t.codes[code] == Waiting(p, env.now + CODE_TTL_MS, RECEIVER_MAX_PREPAIR_ATTEMPTS, env.freshReg)
          && (forall d :: d in t.codes && t.codes[d].receiver == p ==> d == code)
          && (forall d :: d in s.codes && s.codes[d].receiver != p ==> d in t.codes && t.codes[d] == s.codes[d])
          && At(t, p) == At(s, p).(role := Receiver, code := Some(code)) && OnlyPeers(s, t, {p}) && t.sessions == s.sessions)
    && (!MayEnrol(s, p, code, acceptable, env) ==> if Lapsed(s, p, code, acceptable, env) then Expired(s, t, code) else t == s)
  }

  /** The peer asks again for its own code, which has expired. */
  predicate Lapsed(s: State, p: PeerId, code: Code, acceptable: bool, env: Env) {
    env.attemptRateOk && acceptable && OwnsCode(s, p, code) && !(s.codes[code].expiresAt > env.now && At(s, p).open)
  }

  /** The entry goes, its receiver is let go, and nothing else happens. */
  ghost predicate Expired(s: State, t: State, code: Code) {
    && code in s.codes && t.codes == s.codes - {code} && t.sessions == s.sessions
    && LetGo(t, s.codes[code].receiver) && OnlyPeers(s, t, {s.codes[code].receiver})
  }

  lemma RegisterOutcome(s: State, p: PeerId, code: Code, acceptable: bool, env: Env)
    requires Inv(s) && env.freshReg !in s.registrations
    ensures RegisterDone(s, HandleRegister(s, p, code, acceptable, env), p, code, acceptable, env)
  {
    WaitsUnderOneCode(s, p);
    RegisterEffect(s, p, code, acceptable, env);
    if !MayEnrol(s, p, code, acceptable, env) {
      RefusedRegister(s, p, code, acceptable, env);
    }
  }

  lemma RefusedRegister(s: State, p: PeerId, code: Code, acceptable: bool, env: Env)
    requires Inv(s) && !MayEnrol(s, p, code, acceptable, env)
    ensures var t := HandleRegister(s, p, code, acceptable, env);
            if Lapsed(s, p, code, acceptable, env) then Expired(s, t, code) else t == s
  {
    if OwnsCode(s, p, code) {
      ExpireEffect(s, code);
      assert At(s, p).role.Receiver? && At(s, p).sid.None? && At(s, p).code == Some(code);
      assert p in s.peers;
      assert s.peers[p := s.peers[p]] == s.peers;
    }
  }

  lemma RegisterEffect(s: State, p: PeerId, code: Code, acceptable: bool, env: Env)
    requires env.freshReg !in s.registrations
    ensures var t := HandleRegister(s, p, code, acceptable, env);
            if MayEnrol(s, p, code, acceptable, env) then
              && env.freshReg in t.registrations
              && var kept := if At(s, p).code.Some? && OwnsCode(s, p, At(s, p).code.value) then s.codes - {At(s, p).code.value} else s.codes;
              && t.codes == kept[code := Waiting(p, env.now + CODE_TTL_MS, RECEIVER_MAX_PREPAIR_ATTEMPTS, env.freshReg)]
              && At(t, p) == At(s, p).(role := Receiver, code := Some(code)) && OnlyPeers(s, t, {p}) && t.sessions == s.sessions
            else t.registrations == s.registrations
  {
  }

  /** A peer waits under its own code only. */
  lemma WaitsUnderOneCode(s: State, p: PeerId)
    requires Inv(s)
    ensures forall d: Code :: OwnsCode(s, p, d) ==> At(s, p).code == Some(d)
  {
  }

  // ----- connect -----

  /** An unpaired peer that is no receiver asks for somebody else's code whose receiver can be reached. */
  predicate MayConnect(s: State, p: PeerId, code: Code, acceptable: bool, env: Env) {
    && env.attemptRateOk && acceptable
    && At(s, p).sid.None? && !At(s, p).role.Receiver?
    && code in s.codes && s.codes[code].receiver != p
    && s.codes[code].expiresAt > env.now && At(s, s.codes[code].receiver).open
    && |s.sessions| < SIGNALING_MAX_SESSIONS
  }

  /** The session a connect opens. */
  predicate IsPairing(sess: Session, p: PeerId, w: Waiting, code: Code, env: Env) {
    && sess.sender == p && sess.receiver == w.receiver && sess.code == code && sess.reg == w.reg
    && sess.remaining == w.remaining - 1 && sess.codeExpiresAt == w.expiresAt
    && sess.phase == INITIAL_PHASE && sess.expiresAt == env.now + PAKE_TIMEOUT_MS
  }

  /**
   A connect opens a session exactly then; it takes the waiting entry and one attempt of its
   budget, and pairs the two peers. Otherwise nothing happens, but that an entry whose receiver
   cannot be had any more is dropped.
  */
  ghost predicate ConnectDone(s: State, t: State, p: PeerId, code: Code, acceptable: bool, env: Env) {
    if MayConnect(s, p, code, acceptable, env) then
      && t.codes == s.codes - {code}
      && t.sessions.Keys == s.sessions.Keys + {env.freshSid}
      && IsPairing(t.sessions[env.freshSid], p, s.codes[code], code, env)
      && (forall x :: x in s.sessions ==> t.sessions[x] == s.sessions[x])
      && At(t, p) == At(s, p).(role := Sender, sid := Some(env.freshSid), code := Some(code))
      && At(t, s.codes[code].receiver) == At(s, s.codes[code].receiver).(sid := Some(env.freshSid))
      && OnlyPeers(s, t, {p, s.codes[code].receiver})
    else if AsksForStale(s, p, code, acceptable, env) then Expired(s, t, code)
    else t == s
  }

  /** The code's receiver cannot be had any more. */
  predicate AsksForStale(s: State, p: PeerId, code: Code, acceptable: bool, env: Env) {
    && env.attemptRateOk && acceptable && At(s, p).sid.None? && !At(s, p).role.Receiver? && code in s.codes
    && !(s.codes[code].expiresAt > env.now && At(s, s.codes[code].receiver).open)
  }

  lemma ConnectOutcome(s: State, p: PeerId, code: Code, acceptable: bool, env: Env)
    requires Inv(s) && env.freshSid !in s.relayed && At(s, p).open
    ensures ConnectDone(s, HandleConnect(s, p, code, acceptable, env), p, code, acceptable, env)
  {
    FreshSidNotLive(s, env.freshSid);
    if MayConnect(s, p, code, acceptable, env) {
      ConnectPairs(s, p, code, acceptable, env);
    } else {
      ConnectRefuses(s, p, code, acceptable, env);
    }
  }

  lemma ConnectPairs(s: State, p: PeerId, code: Code, acceptable: bool, env: Env)
    requires Inv(s) && env.freshSid !in s.relayed && env.freshSid !in s.sessions && At(s, p).open
    requires MayConnect(s, p, code, acceptable, env)
    ensures ConnectDone(s, HandleConnect(s, p, code, acceptable, env), p, code, acceptable, env)
  {
    ClaimIsPairing(s, p, code, env);
    ConnectIsClaim(s, p, code, acceptable, env);
  }

  lemma ClaimIsPairing(s: State, p: PeerId, code: Code, env: Env)
    requires Linked(s) && CanClaim(s, p, code, env) && env.freshSid !in s.sessions
    ensures var t := Claim(s, p, code, env);
            && t.codes == s.codes - {code}
            && t.sessions.Keys == s.sessions.Keys + {env.freshSid}
            && IsPairing(t.sessions[env.freshSid], p, s.codes[code], code, env)
            && (forall x :: x in s.sessions ==> t.sessions[x] == s.sessions[x])
            && At(t, p) == At(s, p).(role := Sender, sid := Some(env.freshSid), code := Some(code))
            && At(t, s.codes[code].receiver) == At(s, s.codes[code].receiver).(sid := Some(env.freshSid))
            && OnlyPeers(s, t, {p, s.codes[code].receiver})
  {
    ClaimCodes(s, p, code, env);
    ClaimSession(s, p, code, env);
    ClaimPeers(s, p, code, env);
  }

  lemma BudgetIsLeft(s: State, code: Code)
    requires Inv(s) && code in s.codes
    ensures CanRestorePrePairCode(s.codes[code].remaining)
  {
  }

  lemma ConnectIsClaim(s: State, p: PeerId, code: Code, acceptable: bool, env: Env)
    requires Inv(s) && env.freshSid !in s.relayed && At(s, p).open && MayConnect(s, p, code, acceptable, env)
    ensures HandleConnect(s, p, code, acceptable, env) == Claim(s, p, code, env)
  {
    BudgetIsLeft(s, code);
    FreshSidNotLive(s, env.freshSid);
    BothStillThere(s, p, code, env);
  }

  /** Opening the session closes nobody's socket. */
  lemma BothStillThere(s: State, p: PeerId, code: Code, env: Env)
    requires Linked(s) && CanClaim(s, p, code, env) && env.freshSid !in s.sessions
    requires At(s, p).open && At(s, s.codes[code].receiver).open
    ensures AnnounceSession(Claim(s, p, code, env), OpenSession(s, p, code, s.codes[code], env).1) == Claim(s, p, code, env)
  {
    ClaimPeers(s, p, code, env);
  }

  lemma ConnectRefuses(s: State, p: PeerId, code: Code, acceptable: bool, env: Env)
    requires Inv(s) && env.freshSid !in s.relayed
    requires !MayConnect(s, p, code, acceptable, env)
    ensures var t := HandleConnect(s, p, code, acceptable, env);
            if AsksForStale(s, p, code, acceptable, env) then Expired(s, t, code) else t == s
  {
    if code in s.codes {
      BudgetIsLeft(s, code);
      ExpireEffect(s, code);
      if s.codes[code].receiver == p {
        assert At(s, p).role.Receiver?;
      }
    }
  }

  // ----- relay -----

  /** The peer the message is for can be reached, and a credential can be issued if one is due. */
  predicate Reachable(s: State, sess: Session, from: Side, kind: Kind, env: Env) {
    At(s, SidePeer(sess, OtherSide(from))).open && (kind.PairAccept? ==> env.turnForSender)
  }

  /** The message is in order: its manifest is, and the messages delivered before allow it. */
  ghost predicate InOrder(s: State, sess: Session, m: Relayed, manifestOk: bool) {
    sess.sid in s.relayed && (m.kind.PairRequest? ==> manifestOk) && MayFollow(s.relayed[sess.sid], m)
  }

  /** A message that decides against the transfer, or a decision for it that the receiver gets no credential for. */
  predicate EndsSession(s: State, sess: Session, kind: Kind, env: Env) {
    kind.PairReject? || (kind.PairAccept? && !(env.turnForReceiver && At(s, sess.receiver).open))
  }

  /** The session goes on; a request and an acceptance set its deadline anew, no other message does. */
  ghost predicate GoesOn(s: State, t: State, sess: Session, kind: Kind, env: Env) {
    && t.codes == s.codes && t.peers == s.peers && t.sessions.Keys == s.sessions.Keys
    && (forall x :: x in s.sessions && x != sess.sid ==> t.sessions[x] == s.sessions[x])
    && sess.sid in t.sessions
    && var next := t.sessions[sess.sid];
    && next == sess.(phase := next.phase, timely := next.timely, expiresAt := next.expiresAt)
    && next.expiresAt == if kind.PairRequest? || kind.PairAccept? then env.now + PAIR_TIMEOUT_MS else sess.expiresAt
  }

  /**
   What becomes of the session. A message passed on lets it go on, unless it ends it: then both
   peers are let go. One that cannot be passed on ends it: an undecided session's receiver waits
   again if it was the sender who was lost, and otherwise who wrote is let go. One out of order
   costs an undecided sender its session, and counts against anybody else.
  */
  ghost predicate SessionDone(s: State, t: State, sess: Session, from: Side, kind: Kind, manifestOk: bool, env: Env) {
    if !InOrder(s, sess, Relayed(from, kind), manifestOk) then
      if from.SenderSide? && !sess.phase.pairDecided then t == RestoreWaitingReceiver(s, sess)
      else t.codes == s.codes && t.sessions == s.sessions && OnlyPeers(s, t, {SidePeer(sess, from)})
           && At(t, SidePeer(sess, from)).badMessages == At(s, SidePeer(sess, from)).badMessages + 1
    else if kind.PairAccept? && !env.turnForSender && At(s, SidePeer(sess, OtherSide(from))).open then BothLetGo(s, t, sess)
    else if !At(s, SidePeer(sess, OtherSide(from))).open then
      if from.ReceiverSide? && !kind.PairReject? && !sess.phase.pairDecided then t == RestoreWaitingReceiver(s, sess)
      else EndedWithout(s, t, sess, OtherSide(from))
    else if EndsSession(s, sess, kind, env) then BothLetGo(s, t, sess)
    else GoesOn(s, t, sess, kind, env)
  }

  /**
   A message of one of the session's peers is passed on exactly if the messages delivered
   before allow it, its manifest is in order, and the other peer can be reached; and then it
   is passed on once. A message for no session of the peer is passed to nobody.
  */
  ghost predicate RelayDone(s: State, t: State, p: PeerId, sid: Sid, kind: Kind, manifestOk: bool, env: Env) {
    if sid in s.sessions && sid in s.relayed && (s.sessions[sid].sender == p || s.sessions[sid].receiver == p) then
      var sess := s.sessions[sid];
      var m := Relayed(SideOf(sess, p), kind);
      && t.relayed ==
           (if InOrder(s, sess, m, manifestOk) && Reachable(s, sess, m.from, kind, env)
            then s.relayed[sid := s.relayed[sid] + [m]]
            else s.relayed)
      && SessionDone(s, t, sess, m.from, kind, manifestOk, env)
    else t == s
  }

  lemma RelayOutcome(s: State, p: PeerId, sid: Sid, kind: Kind, manifestOk: bool, env: Env)
    requires Inv(s)
    ensures RelayDone(s, HandleRelay(s, p, sid, kind, manifestOk, env), p, sid, kind, manifestOk, env)
  {
    if sid in s.sessions && (s.sessions[sid].sender == p || s.sessions[sid].receiver == p) {
      assert sid in s.relayed;
      MemberRelayOutcome(s, p, sid, kind, manifestOk, env);
    }
  }

  lemma MemberRelayOutcome(s: State, p: PeerId, sid: Sid, kind: Kind, manifestOk: bool, env: Env)
    requires Inv(s) && sid in s.sessions && (s.sessions[sid].sender == p || s.sessions[sid].receiver == p)
    ensures RelayDone(s, HandleRelay(s, p, sid, kind, manifestOk, env), p, sid, kind, manifestOk, env)
  {
    var sess := s.sessions[sid];
    var from := SideOf(sess, p);
    MemberSession(s, p, sid, kind, manifestOk, env);
    AllowedExactlyWhenMayFollow(sess.phase, s.relayed[sid], from, kind);
    if (kind.PairRequest? && !manifestOk) || !AllowedForRole(from, kind) || !AllowedForPhase(sess.phase, from, kind) {
      RejectSaysNothing(s, sess, p);
    } else if !At(s, SidePeer(sess, OtherSide(from))).open {
      FailureSaysNothing(s, sess, OtherSide(from), !kind.PairReject?);
    } else if kind.PairAccept? {
      AcceptOutcome(s, sess, from, env);
    } else {
      CloseSaysNothing(Advance(Delivered(s, sess, from, kind), sess, from, kind, env.now), sess);
    }
  }

  lemma MemberSession(s: State, p: PeerId, sid: Sid, kind: Kind, manifestOk: bool, env: Env)
    requires Inv(s) && sid in s.sessions && (s.sessions[sid].sender == p || s.sessions[sid].receiver == p)
    ensures var sess := s.sessions[sid];
            SessionDone(s, HandleRelay(s, p, sid, kind, manifestOk, env), sess, SideOf(sess, p), kind, manifestOk, env)
  {
    var sess := s.sessions[sid];
    var from := SideOf(sess, p);
    AllowedExactlyWhenMayFollow(sess.phase, s.relayed[sid], from, kind);
    if (kind.PairRequest? && !manifestOk) || !AllowedForRole(from, kind) || !AllowedForPhase(sess.phase, from, kind) {
      RefusedSession(s, p, sess, kind, manifestOk, env);
    } else if !At(s, SidePeer(sess, OtherSide(from))).open {
      UnreachedSession(s, p, sess, kind, manifestOk, env);
    } else {
      PassedSession(s, p, sess, kind, manifestOk, env);
    }
  }

  /** One of the session's peers, and whether the flags let its message through. */
  predicate MaySay(sess: Session, p: PeerId, kind: Kind, manifestOk: bool) {
    var from := SideOf(sess, p);
    (kind.PairRequest? ==> manifestOk) && AllowedForRole(from, kind) && AllowedForPhase(sess.phase, from, kind)
  }

  lemma RefusedSession(s: State, p: PeerId, sess: Session, kind: Kind, manifestOk: bool, env: Env)
    requires Linked(s) && Live(s, sess) && (sess.sender == p || sess.receiver == p) && !MaySay(sess, p, kind, manifestOk)
    requires !InOrder(s, sess, Relayed(SideOf(sess, p), kind), manifestOk)
    ensures SessionDone(s, HandleRelay(s, p, sess.sid, kind, manifestOk, env), sess, SideOf(sess, p), kind, manifestOk, env)
  {
    BadMessageOutcome(s, p);
  }

  lemma UnreachedSession(s: State, p: PeerId, sess: Session, kind: Kind, manifestOk: bool, env: Env)
    requires Linked(s) && Live(s, sess) && (sess.sender == p || sess.receiver == p) && MaySay(sess, p, kind, manifestOk)
    requires InOrder(s, sess, Relayed(SideOf(sess, p), kind), manifestOk)
    requires !At(s, SidePeer(sess, OtherSide(SideOf(sess, p)))).open
    ensures SessionDone(s, HandleRelay(s, p, sess.sid, kind, manifestOk, env), sess, SideOf(sess, p), kind, manifestOk, env)
  {
    EndEffect(s, sess, OtherSide(SideOf(sess, p)));
  }

  lemma PassedSession(s: State, p: PeerId, sess: Session, kind: Kind, manifestOk: bool, env: Env)
    requires Linked(s) && Live(s, sess) && (sess.sender == p || sess.receiver == p) && MaySay(sess, p, kind, manifestOk)
    requires InOrder(s, sess, Relayed(SideOf(sess, p), kind), manifestOk)
    requires At(s, SidePeer(sess, OtherSide(SideOf(sess, p)))).open
    ensures SessionDone(s, HandleRelay(s, p, sess.sid, kind, manifestOk, env), sess, SideOf(sess, p), kind, manifestOk, env)
  {
    var from := SideOf(sess, p);
    if kind.PairAccept? {
      AcceptSession(s, sess, from, env);
    } else if kind.PairReject? {
      RejectSession(s, sess, from, env.now);
    } else {
      ForwardSession(s, sess, from, kind, env.now);
    }
  }

  lemma RejectSession(s: State, sess: Session, from: Side, now: int)
    ensures BothLetGo(s, CloseSessionPeers(Advance(Delivered(s, sess, from, PairReject), sess, from, PairReject, now), sess), sess)
  {
    RejectEndsSession(s, sess, from, now);
    CloseEffect(Delivered(s, sess, from, PairReject), sess);
  }

  lemma ForwardSession(s: State, sess: Session, from: Side, kind: Kind, now: int)
    requires Live(s, sess)
    ensures var t := Advance(Delivered(s, sess, from, kind), sess, from, kind, now);
            && t.codes == s.codes && t.peers == s.peers && t.sessions.Keys == s.sessions.Keys
            && (forall x :: x in s.sessions && x != sess.sid ==> t.sessions[x] == s.sessions[x])
            && sess.sid in t.sessions
            && var next := t.sessions[sess.sid];
            && next == sess.(phase := next.phase, timely := next.timely, expiresAt := next.expiresAt)
            && next.expiresAt == if kind.PairRequest? || kind.PairAccept? then now + PAIR_TIMEOUT_MS else sess.expiresAt
  {
  }

  lemma AcceptSession(s: State, sess: Session, from: Side, env: Env)
    requires Live(s, sess) && sess.sender != sess.receiver && from.ReceiverSide? && At(s, sess.sender).open
    ensures var t := RelayAccept(s, sess, from, env);
            if !env.turnForSender || EndsSession(s, sess, PairAccept, env) then BothLetGo(s, t, sess)
            else GoesOn(s, t, sess, PairAccept, env)
  {
    var s1 := Delivered(s, sess, from, PairAccept);
    CloseEffect(s, sess);
    CloseEffect(s1, sess);
    ForwardSession(s, sess, from, PairAccept, env.now);
  }

  lemma CloseSaysNothing(s: State, sess: Session)
    ensures CloseSessionPeers(s, sess).relayed == s.relayed
  {
  }

  lemma EndsSayNothing(s: State, sess: Session, existing: bool)
    ensures ExpireReceiverAfterPrePairAttempts(s, sess, existing).relayed == s.relayed
    ensures SendRestoredRegistration(s, sess).relayed == s.relayed
  {
  }

  lemma RestoreSaysNothing(s: State, sess: Session)
    ensures RestoreWaitingReceiver(s, sess).relayed == s.relayed
  {
    var u := Unpair(s, sess);
    if sess.code in s.codes {
      var existing := s.codes[sess.code];
      var merged := u.(codes := s.codes[sess.code := existing.(remaining := Min(existing.remaining, sess.remaining))]);
      EndsSayNothing(merged, sess, true);
      EndsSayNothing(Close(merged, sess.sender), sess, true);
      CloseSaysNothing(DropSession(s, sess.sid), sess);
    } else {
      EndsSayNothing(u, sess, false);
      EndsSayNothing(Close(Requeue(s, sess), sess.sender), sess, false);
    }
  }

  lemma RejectSaysNothing(s: State, sess: Session, p: PeerId)
    ensures RejectRelayMessage(s, sess, p).relayed == s.relayed
  {
    RestoreSaysNothing(s, sess);
    if At(s, p).sid.Some? && At(s, p).sid.value in s.sessions {
      RestoreSaysNothing(s, s.sessions[At(s, p).sid.value]);
    }
  }

  lemma FailureSaysNothing(s: State, sess: Session, target: Side, restore: bool)
    ensures RelayDeliveryFailed(s, sess, target, restore).relayed == s.relayed
  {
    RestoreSaysNothing(s, sess);
  }

  lemma AcceptOutcome(s: State, sess: Session, from: Side, env: Env)
    requires Live(s, sess) && sess.sid in s.relayed && from.ReceiverSide? && At(s, sess.sender).open
    ensures RelayAccept(s, sess, from, env).relayed ==
              if env.turnForSender then s.relayed[sess.sid := s.relayed[sess.sid] + [Relayed(from, PairAccept)]] else s.relayed
  {
    CloseSaysNothing(s, sess);
    CloseSaysNothing(Delivered(s, sess, from, PairAccept), sess);
  }

  // ----- the receiver's place -----

  /** Its code is free, its budget is not used up, and it is still there. */
  predicate CanWaitAgain(s: State, sess: Session) {
    sess.code !in s.codes && sess.remaining > 0 && At(s, sess.receiver).open
  }

  /**
   A session that ends before pairing gives the receiver its place back exactly then: the same
   code, registration, expiry and budget. Its sender is let go in any case, and a receiver
   that cannot wait again is let go too; nobody else's code changes.
  */
  lemma RestoreOutcome(s: State, sess: Session)
    requires Inv(s) && Live(s, sess)
    ensures var t := RestoreWaitingReceiver(s, sess);
            && sess.sid !in t.sessions
            && !At(t, sess.sender).open && At(t, sess.sender).sid.None? && At(t, sess.receiver).sid.None?
            && (if CanWaitAgain(s, sess) then
                  && t.codes == s.codes[sess.code := Waiting(sess.receiver, sess.codeExpiresAt, sess.remaining, sess.reg)]
                  && At(t, sess.receiver).open && At(t, sess.receiver).role.Receiver?
                  && At(t, sess.receiver).code == Some(sess.code)
                else
                  t.codes == s.codes && !At(t, sess.receiver).open)
  {
    if sess.code in s.codes {
      CodeTakenOutcome(s, sess);
    } else if sess.remaining <= 0 {
      ExhaustedOutcome(s, sess);
    } else {
      RequeuedOutcome(s, sess);
    }
  }

  lemma CodeTakenOutcome(s: State, sess: Session)
    requires Inv(s) && Live(s, sess) && sess.code in s.codes
    ensures var t := RestoreWaitingReceiver(s, sess); sess.sid !in t.sessions && t.codes == s.codes && LetGo(t, sess.sender) && LetGo(t, sess.receiver)
  {
    PairedReceiverIsNotWaiting(s, sess, sess.code);
  }

  lemma ExhaustedOutcome(s: State, sess: Session)
    requires Inv(s) && Live(s, sess) && sess.code !in s.codes && sess.remaining <= 0
    ensures var t := RestoreWaitingReceiver(s, sess); sess.sid !in t.sessions && t.codes == s.codes && LetGo(t, sess.sender) && LetGo(t, sess.receiver)
  {
  }

  lemma RequeuedOutcome(s: State, sess: Session)
    requires Inv(s) && Live(s, sess) && sess.code !in s.codes && sess.remaining > 0
    ensures var t := RestoreWaitingReceiver(s, sess);
            && sess.sid !in t.sessions
            && !At(t, sess.sender).open && At(t, sess.sender).sid.None? && At(t, sess.receiver).sid.None?
            && (if At(s, sess.receiver).open then
                  && t.codes == s.codes[sess.code := Waiting(sess.receiver, sess.codeExpiresAt, sess.remaining, sess.reg)]
                  && At(t, sess.receiver).open && At(t, sess.receiver).role.Receiver?
                  && At(t, sess.receiver).code == Some(sess.code)
                else
                  t.codes == s.codes && !At(t, sess.receiver).open)
  {
    assert sess.sender != sess.receiver;
    assert CanRestorePrePairCode(sess.remaining);
    RequeuedPeers(s, sess);
  }

  lemma RequeuedPeers(s: State, sess: Session)
    requires sess.sender != sess.receiver && CanRestorePrePairCode(sess.remaining) && sess.code !in s.codes
    ensures var t := RestoreWaitingReceiver(s, sess);
            && sess.sid !in t.sessions
            && !At(t, sess.sender).open && At(t, sess.sender).sid.None? && At(t, sess.receiver).sid.None?
            && (if At(s, sess.receiver).open then
                  && t.codes == s.codes[sess.code := Waiting(sess.receiver, sess.codeExpiresAt, sess.remaining, sess.reg)]
                  && At(t, sess.receiver).open && At(t, sess.receiver).role.Receiver?
                  && At(t, sess.receiver).code == Some(sess.code)
                else
                  t.codes == s.codes && !At(t, sess.receiver).open)
  {
    assert s.codes[sess.code := Waiting(sess.receiver, sess.codeExpiresAt, sess.remaining, sess.reg)] - {sess.code} == s.codes;
  }

  /** A sender that disconnects before pairing is decided leaves the receiver where it was before. */
  lemma SenderLossOutcome(s: State, p: PeerId, sid: Sid)
    requires Inv(s) && sid in s.sessions && s.sessions[sid].sender == p && BeforePairAcceptance(s.sessions[sid])
    ensures CleanupPeer(s, p) == RestoreWaitingReceiver(s, s.sessions[sid])
    ensures CanWaitAgain(s, s.sessions[sid]) ==>
              OwnsCode(CleanupPeer(s, p), s.sessions[sid].receiver, s.sessions[sid].code)
  {
    assert Live(s, s.sessions[sid]);
    SenderDoesNotWait(s, p, sid);
    RestoreOutcome(s, s.sessions[sid]);
  }

  lemma SenderDoesNotWait(s: State, p: PeerId, sid: Sid)
    requires Inv(s) && sid in s.sessions && s.sessions[sid].sender == p
    ensures At(s, p).sid == Some(sid) && forall c: Code :: !OwnsCode(s, p, c)
  {
  }

  // ----- who changes a session -----

  /** Sessions only go. */
  ghost predicate SessionsOnlyGo(s: State, t: State) {
    forall x :: x in t.sessions ==> x in s.sessions && t.sessions[x] == s.sessions[x]
  }

  lemma LeavingOnlyEnds(s: State, p: PeerId)
    requires Linked(s)
    ensures SessionsOnlyGo(s, CleanupPeer(s, p)) && SessionsOnlyGo(s, BadMessage(s, p))
  {
    LeaveOutcome(s, p);
    BadMessageOutcome(s, p);
    if At(s, p).sid.Some? {
      SessionOf(s, p);
      RestoreFrame(s, s.sessions[At(s, p).sid.value]);
    }
  }

  lemma ByeOnlyEnds(s: State, p: PeerId, prepairRetry: bool, now: int)
    requires Linked(s)
    ensures SessionsOnlyGo(s, HandleBye(s, p, prepairRetry, now))
  {
    ByeOutcome(s, p, prepairRetry, now);
    LeavingOnlyEnds(s, p);
    CloseOutcome(CleanupPeer(s, p), p);
    if At(s, p).sid.Some? {
      SessionOf(s, p);
      RestoreFrame(s, s.sessions[At(s, p).sid.value]);
    }
  }

  lemma SweepsOnlyEnd(s: State, e: Event)
    requires Linked(s) && (e.SweepCode? || e.SweepSession?)
    ensures SessionsOnlyGo(s, Step(s, e))
  {
    match e
    case SweepCode(c, now) => SweptCode(s, c, now);
    case SweepSession(x, now) =>
      SweptSession(s, x, now);
      if x in s.sessions {
        RestoreFrame(s, s.sessions[x]);
      }
  }

  /** Every session that is live before and after the relaying of a message is as before, but for the one it was passed on in. */
  ghost predicate RelayTouches(s: State, t: State, p: PeerId, sid: Sid, kind: Kind, now: int) {
    forall x :: x in t.sessions ==>
      && x in s.sessions
      && (t.sessions[x] == s.sessions[x]
          || (x == sid && (s.sessions[x].sender == p || s.sessions[x].receiver == p)
              && t.sessions[x].expiresAt == if kind.PairRequest? || kind.PairAccept? then now + PAIR_TIMEOUT_MS else s.sessions[x].expiresAt))
  }

  lemma RelayTouchesOne(s: State, p: PeerId, sid: Sid, kind: Kind, manifestOk: bool, env: Env)
    requires Inv(s)
    ensures RelayTouches(s, HandleRelay(s, p, sid, kind, manifestOk, env), p, sid, kind, env.now)
  {
    var t := HandleRelay(s, p, sid, kind, manifestOk, env);
    RelayOutcome(s, p, sid, kind, manifestOk, env);
    if sid in s.sessions && (s.sessions[sid].sender == p || s.sessions[sid].receiver == p) {
      var sess := s.sessions[sid];
      assert sid in s.relayed && Live(s, sess);
      if GoesOn(s, t, sess, kind, env) {
        GoingOnTouches(s, t, sess, p, kind, env);
      } else {
        OtherwiseOnlyGo(s, t, sess, SideOf(sess, p), kind, manifestOk, env);
      }
    }
  }

  lemma GoingOnTouches(s: State, t: State, sess: Session, p: PeerId, kind: Kind, env: Env)
    requires Live(s, sess) && (sess.sender == p || sess.receiver == p) && GoesOn(s, t, sess, kind, env)
    ensures RelayTouches(s, t, p, sess.sid, kind, env.now)
  {
  }

  lemma OtherwiseOnlyGo(s: State, t: State, sess: Session, from: Side, kind: Kind, manifestOk: bool, env: Env)
    requires Linked(s) && Live(s, sess) && SessionDone(s, t, sess, from, kind, manifestOk, env) && !GoesOn(s, t, sess, kind, env)
    ensures SessionsOnlyGo(s, t)
  {
    RestoreFrame(s, sess);
  }

  /** Deadlines move only by a request or an acceptance of one of the two peers, and then to five minutes from now. */
  ghost predicate DeadlineStands(s: State, t: State, x: Sid, e: Event) {
    x in s.sessions && x in t.sessions ==>
      || t.sessions[x].expiresAt == s.sessions[x].expiresAt
      || (e.Deliver? && e.message.Relay? && e.message.sid == x
          && (e.message.kind.PairRequest? || e.message.kind.PairAccept?)
          && (s.sessions[x].sender == e.peer || s.sessions[x].receiver == e.peer)
          && t.sessions[x].expiresAt == e.env.now + PAIR_TIMEOUT_MS)
  }

  lemma DeadlineMoves(s: State, e: Event, x: Sid)
    requires Inv(s) && FreshIds(s, e)
    ensures DeadlineStands(s, Step(s, e), x, e)
  {
    match e
    case Deliver(p, m, env) => MessageMovesDeadline(s, p, m, env, x);
    case Disconnect(p) => LeavingOnlyEnds(s, p);
    case SweepCode(_, _) => SweepsOnlyEnd(s, e);
    case SweepSession(_, _) => SweepsOnlyEnd(s, e);
    case _ => SocketsStand(s, e);
  }

  lemma SocketsStand(s: State, e: Event)
    requires e.Arrive? || e.IdleTimeout? || e.SocketCloses?
    ensures Step(s, e).sessions == s.sessions
  {
  }

  /** The session is not there before and after, or it is the same. */
  predicate Stands(s: State, t: State, x: Sid) { x in s.sessions && x in t.sessions ==> t.sessions[x] == s.sessions[x] }

  lemma PairingStands(s: State, p: PeerId, code: Code, acceptable: bool, env: Env, x: Sid)
    requires Inv(s) && At(s, p).open && env.freshSid !in s.relayed && env.freshReg !in s.registrations
    ensures Stands(s, HandleRegister(s, p, code, acceptable, env), x)
    ensures Stands(s, HandleConnect(s, p, code, acceptable, env), x)
  {
    RegisterOutcome(s, p, code, acceptable, env);
    ConnectOutcome(s, p, code, acceptable, env);
  }

  lemma EndingStands(s: State, p: PeerId, prepairRetry: bool, now: int, x: Sid)
    requires Linked(s)
    ensures Stands(s, HandleBye(s, p, prepairRetry, now), x) && Stands(s, BadMessage(s, p), x)
  {
    ByeOnlyEnds(s, p, prepairRetry, now);
    LeavingOnlyEnds(s, p);
  }

  lemma RelayingStands(s: State, p: PeerId, sid: Sid, kind: Kind, manifestOk: bool, env: Env, x: Sid)
    requires Inv(s)
    ensures DeadlineStands(s, HandleRelay(s, p, sid, kind, manifestOk, env), x, Deliver(p, Relay(sid, kind, manifestOk), env))
  {
    RelayTouchesOne(s, p, sid, kind, manifestOk, env);
  }

  lemma MessageMovesDeadline(s: State, p: PeerId, m: Message, env: Env, x: Sid)
    requires Inv(s) && FreshIds(s, Deliver(p, m, env))
    ensures DeadlineStands(s, Step(s, Deliver(p, m, env)), x, Deliver(p, m, env))
  {
    if AcceptsClientMessages(s, p) && env.messageRateOk {
      match m
      case Register(code, acceptable) => PairingStands(s, p, code, acceptable, env, x);
      case Connect(code, acceptable) => PairingStands(s, p, code, acceptable, env, x);
      case Relay(sid, kind, manifestOk) => RelayingStands(s, p, sid, kind, manifestOk, env, x);
      case Bye(prepairRetry) => EndingStands(s, p, prepairRetry, env.now, x);
      case Malformed => EndingStands(s, p, false, env.now, x);
    } else {
      GateOutcome(s, p, m, env);
    }
  }
}
