/**
 What the server's handlers do to peers, waiting entries and sessions, and what they leave
 alone: sweeps, leaving, retries and bad messages.
*/
module RendezvousEffects {
  import opened Prelude
  import opened RelayPolicy
  import opened Rendezvous
  import opened RendezvousInvariants

  // ----- what is left alone -----

  /** No other peer changes. */
  ghost predicate OnlyPeers(s: State, t: State, ps: set<PeerId>) { forall q: PeerId :: q !in ps ==> At(t, q) == At(s, q) }

  /** The peer is told to go: it waits nowhere, is in no session, and nothing it says counts any more. */
  predicate LetGo(t: State, p: PeerId) { At(t, p).(badMessages := 0) == Peer(Unset, None, None, false, true, 0) }

  lemma ExpireEffect(s: State, c: Code)
    requires c in s.codes
    ensures var t := ExpireWaiting(s, c, s.codes[c].receiver);
            && t.codes == s.codes - {c} && t.sessions == s.sessions
            && LetGo(t, s.codes[c].receiver) && OnlyPeers(s, t, {s.codes[c].receiver})
  {
  }

  /** Both peers of a session are let go, and nothing else happens. */
  ghost predicate BothLetGo(s: State, t: State, sess: Session) {
    && t.sessions == s.sessions - {sess.sid} && t.codes == s.codes
    && LetGo(t, sess.sender) && LetGo(t, sess.receiver) && OnlyPeers(s, t, {sess.sender, sess.receiver})
  }

  lemma CloseEffect(s: State, sess: Session)
    ensures BothLetGo(s, CloseSessionPeers(s, sess), sess)
  {
  }

  /** A session ends because one side is gone: the other side is let go. */
  ghost predicate EndedWithout(s: State, t: State, sess: Session, gone: Side) {
    && t.sessions == s.sessions - {sess.sid} && t.codes == s.codes
    && LetGo(t, SidePeer(sess, OtherSide(gone)))
    && At(t, SidePeer(sess, gone)) == At(s, SidePeer(sess, gone)).(role := Unset, sid := None, code := None)
    && OnlyPeers(s, t, {sess.sender, sess.receiver})
  }

  lemma EndEffect(s: State, sess: Session, gone: Side)
    requires sess.sender != sess.receiver
    ensures EndedWithout(s, EndSession(s, sess, gone), sess, gone)
  {
  }

  /** That session goes, an entry may come back and none goes, and only its peers change. */
  ghost predicate OnlySession(s: State, t: State, sess: Session) {
    && t.sessions == s.sessions - {sess.sid}
    && (forall c :: c in s.codes ==> c in t.codes && t.codes[c] == s.codes[c])
    && OnlyPeers(s, t, {sess.sender, sess.receiver})
  }

  lemma RestoreFrame(s: State, sess: Session)
    requires Linked(s) && Live(s, sess)
    ensures OnlySession(s, RestoreWaitingReceiver(s, sess), sess)
  {
    if sess.code in s.codes {
      PairedReceiverIsNotWaiting(s, sess, sess.code);
      DropTwice(s, sess);
      CloseEffect(s, sess);
    } else {
      FreeCodeFrame(s, sess);
    }
  }

  lemma FreeCodeFrame(s: State, sess: Session)
    requires Live(s, sess) && sess.code !in s.codes
    ensures OnlySession(s, RestoreWaitingReceiver(s, sess), sess)
  {
    if CanRestorePrePairCode(sess.remaining) {
      RequeueFrame(s, sess);
    } else {
      ExhaustedFrame(s, sess);
    }
  }

  lemma RequeueFrame(s: State, sess: Session)
    requires sess.code !in s.codes && CanRestorePrePairCode(sess.remaining)
    ensures OnlySession(s, RestoreWaitingReceiver(s, sess), sess)
  {
  }

  lemma ExhaustedFrame(s: State, sess: Session)
    requires sess.code !in s.codes && !CanRestorePrePairCode(sess.remaining)
    ensures OnlySession(s, RestoreWaitingReceiver(s, sess), sess)
  {
  }

  // ----- the expiry sweep -----

  /** An expired entry goes and its receiver is let go; any other entry stays, and nothing changes. */
  lemma SweptCode(s: State, c: Code, now: int)
    ensures var t := Step(s, SweepCode(c, now));
            if c in s.codes && s.codes[c].expiresAt <= now then
              && t.codes == s.codes - {c} && t.sessions == s.sessions
              && LetGo(t, s.codes[c].receiver) && OnlyPeers(s, t, {s.codes[c].receiver})
            else t == s
  {
    if c in s.codes {
      ExpireEffect(s, c);
    }
  }

  /** The receiver of an expired session can have its place back: nothing is decided, its code lives, it is there. */
  predicate MayWaitOn(s: State, sess: Session, now: int) {
    !sess.phase.pairDecided && sess.codeExpiresAt > now && At(s, sess.receiver).open
  }

  /** An expired session goes, with both peers unless the receiver can wait on; any other stays, and nothing changes. */
  lemma SweptSession(s: State, x: Sid, now: int)
    requires Linked(s)
    ensures var t := Step(s, SweepSession(x, now));
            if x in s.sessions && s.sessions[x].expiresAt <= now then
              var sess := s.sessions[x];
              if MayWaitOn(s, sess, now) then t == RestoreWaitingReceiver(s, sess) else BothLetGo(s, t, sess)
            else t == s
  {
    if x in s.sessions {
      DropTwice(s, s.sessions[x]);
      CloseEffect(s, s.sessions[x]);
    }
  }

  /** Entries and sessions that expire later are as before, and so are their peers. */
  ghost predicate Spared(s: State, t: State, now: int) {
    && (forall c :: c in s.codes && s.codes[c].expiresAt > now ==>
          c in t.codes && t.codes[c] == s.codes[c] && At(t, s.codes[c].receiver) == At(s, s.codes[c].receiver))
    && (forall x :: x in s.sessions && s.sessions[x].expiresAt > now ==>
          && x in t.sessions && t.sessions[x] == s.sessions[x]
          && At(t, s.sessions[x].sender) == At(s, s.sessions[x].sender)
          && At(t, s.sessions[x].receiver) == At(s, s.sessions[x].receiver))
  }

  lemma SweptCodeSpares(s: State, c: Code, now: int)
    requires Linked(s)
    ensures Spared(s, Step(s, SweepCode(c, now)), now)
  {
    SweptCode(s, c, now);
  }

  lemma OnlySessionSpares(s: State, t: State, sess: Session, now: int)
    requires Linked(s) && Live(s, sess) && sess.expiresAt <= now && OnlySession(s, t, sess)
    ensures Spared(s, t, now)
  {
    forall c | c in s.codes
      ensures s.codes[c].receiver !in {sess.sender, sess.receiver}
    {
      PairedReceiverIsNotWaiting(s, sess, c);
    }
  }

  lemma SweptSessionSpares(s: State, x: Sid, now: int)
    requires Linked(s)
    ensures Spared(s, Step(s, SweepSession(x, now)), now)
  {
    SweptSession(s, x, now);
    if x in s.sessions && s.sessions[x].expiresAt <= now {
      RestoreFrame(s, s.sessions[x]);
      OnlySessionSpares(s, Step(s, SweepSession(x, now)), s.sessions[x], now);
    }
  }

  lemma SparedTwice(s: State, t: State, u: State, now: int)
    requires Spared(s, t, now) && Spared(t, u, now)
    ensures Spared(s, u, now)
  {
  }

  /** Who was let go is not touched again. */
  lemma GoneStays(s: State, e: Event, p: PeerId)
    requires Linked(s) && LetGo(s, p) && (e.SweepCode? || e.SweepSession?)
    ensures LetGo(Step(s, e), p)
  {
    match e
    case SweepCode(c, now) => SweptCode(s, c, now);
    case SweepSession(x, now) =>
      SweptSession(s, x, now);
      if x in s.sessions {
        RestoreFrame(s, s.sessions[x]);
      }
  }

  // ----- leaving -----

  /** The session a peer is in. */
  lemma SessionOf(s: State, p: PeerId)
    requires Linked(s) && At(s, p).sid.Some?
    ensures At(s, p).sid.value in s.sessions
    ensures var sess := s.sessions[At(s, p).sid.value]; Live(s, sess) && (sess.sender == p || sess.receiver == p)
  {
  }

  /**
   A peer that leaves waits nowhere and is in no session any more. If it sent and nothing was
   decided, the receiver's place is restored; otherwise the other peer is let go. Nobody else
   notices.
  */
  lemma LeaveOutcome(s: State, p: PeerId)
    requires Linked(s)
    ensures var t := CleanupPeer(s, p);
            if At(s, p).sid.None? then
              && t.sessions == s.sessions && OnlyPeers(s, t, {})
              && (forall c :: c in t.codes <==> c in s.codes && s.codes[c].receiver != p)
              && (forall c :: c in t.codes ==> t.codes[c] == s.codes[c])
            else
              var sess := s.sessions[At(s, p).sid.value];
              if sess.sender == p && !sess.phase.pairDecided then t == RestoreWaitingReceiver(s, sess)
              else EndedWithout(s, t, sess, if sess.sender == p then SenderSide else ReceiverSide)
  {
    if At(s, p).sid.None? {
      WaiterLeaves(s, p);
    } else {
      PairedLeaves(s, p);
    }
  }

  lemma WaiterLeaves(s: State, p: PeerId)
    requires Linked(s) && At(s, p).sid.None?
    ensures var t := CleanupPeer(s, p);
            && t.sessions == s.sessions && OnlyPeers(s, t, {})
            && (forall c :: c in t.codes <==> c in s.codes && s.codes[c].receiver != p)
            && (forall c :: c in t.codes ==> t.codes[c] == s.codes[c])
  {
    assert forall c: Code :: OwnsCode(s, p, c) ==> At(s, p).code == Some(c);
  }

  lemma PairedLeaves(s: State, p: PeerId)
    requires Linked(s) && At(s, p).sid.Some?
    ensures At(s, p).sid.value in s.sessions
    ensures var t, sess := CleanupPeer(s, p), s.sessions[At(s, p).sid.value];
            if sess.sender == p && !sess.phase.pairDecided then t == RestoreWaitingReceiver(s, sess)
            else EndedWithout(s, t, sess, if sess.sender == p then SenderSide else ReceiverSide)
  {
    SessionOf(s, p);
    var sess := s.sessions[At(s, p).sid.value];
    assert forall c: Code :: !OwnsCode(s, p, c);
    EndEffect(s, sess, SideOf(sess, p));
  }

  /** A `bye` leaves and closes, unless it is the retry of a receiver whose pairing is not decided. */
  lemma ByeOutcome(s: State, p: PeerId, prepairRetry: bool, now: int)
    requires Linked(s)
    ensures var t := HandleBye(s, p, prepairRetry, now);
            if prepairRetry && At(s, p).sid.None? && At(s, p).code.Some? && OwnsCode(s, p, At(s, p).code.value) then
              var c := At(s, p).code.value;
              if s.codes[c].expiresAt > now && At(s, p).open then t == s
              else t.codes == s.codes - {c} && t.sessions == s.sessions && LetGo(t, p) && OnlyPeers(s, t, {p})
            else if prepairRetry && At(s, p).sid.Some? && s.sessions[At(s, p).sid.value].receiver == p
                    && !s.sessions[At(s, p).sid.value].phase.pairDecided then
              t == RestoreWaitingReceiver(s, s.sessions[At(s, p).sid.value])
            else t == Close(CleanupPeer(s, p), p)
  {
    if At(s, p).sid.Some? {
      SessionOf(s, p);
    } else if At(s, p).code.Some? && OwnsCode(s, p, At(s, p).code.value) {
      ExpireEffect(s, At(s, p).code.value);
    }
  }

  /** The peer waits nowhere and is in no session. */
  ghost predicate Nowhere(s: State, p: PeerId) {
    && (forall c :: c in s.codes ==> s.codes[c].receiver != p)
    && (forall x :: x in s.sessions ==> s.sessions[x].sender != p && s.sessions[x].receiver != p)
  }

  /** Whoever disconnects has left and is in nobody's way, and is released. */
  lemma DisconnectOutcome(s: State, p: PeerId)
    requires Inv(s)
    ensures var t, u := Step(s, Disconnect(p)), CleanupPeer(s, p);
            && t.codes == u.codes && t.sessions == u.sessions && OnlyPeers(u, t, {p})
            && At(t, p) == At(u, p).(released := true)
            && Nowhere(t, p)
  {
    var u := CleanupPeer(s, p);
    NowhereAfterLeaving(s, p);
    ReleaseFrame(u, p);
    assert Step(s, Disconnect(p)) == SetPeer(u, p, At(u, p).(released := true));
  }

  lemma ReleaseFrame(u: State, p: PeerId)
    ensures var t := SetPeer(u, p, At(u, p).(released := true));
            && t.codes == u.codes && t.sessions == u.sessions && OnlyPeers(u, t, {p})
            && At(t, p) == At(u, p).(released := true)
            && (Nowhere(u, p) ==> Nowhere(t, p))
  {
  }

  lemma UnattachedIsNowhere(u: State, p: PeerId)
    requires Linked(u) && At(u, p).sid.None? && !At(u, p).role.Receiver?
    ensures Nowhere(u, p)
  {
  }

  lemma NowhereAfterLeaving(s: State, p: PeerId)
    requires Inv(s)
    ensures Nowhere(CleanupPeer(s, p), p)
  {
    if At(s, p).sid.None? {
      WaiterLeaves(s, p);
      WaiterIsInNoSession(s, CleanupPeer(s, p), p);
    } else {
      CleanupKeeps(s, p);
      PairedIsCleared(s, p);
      UnattachedIsNowhere(CleanupPeer(s, p), p);
    }
  }

  lemma WaiterIsInNoSession(s: State, t: State, p: PeerId)
    requires Linked(s) && At(s, p).sid.None? && t.sessions == s.sessions
    requires forall c :: c in t.codes ==> c in s.codes && s.codes[c].receiver != p && t.codes[c] == s.codes[c]
    ensures Nowhere(t, p)
  {
  }

  lemma PairedIsCleared(s: State, p: PeerId)
    requires Linked(s) && At(s, p).sid.Some?
    ensures var u := CleanupPeer(s, p); At(u, p).sid.None? && !At(u, p).role.Receiver?
  {
    SessionOf(s, p);
    PairedLeaves(s, p);
    var sess := s.sessions[At(s, p).sid.value];
    if sess.sender == p && !sess.phase.pairDecided {
      SenderIsCleared(s, sess);
    }
  }

  lemma SenderIsCleared(s: State, sess: Session)
    requires Linked(s) && Live(s, sess)
    ensures var t := RestoreWaitingReceiver(s, sess); At(t, sess.sender).sid.None? && At(t, sess.sender).role.Unset?
  {
    if sess.code in s.codes {
      PairedReceiverIsNotWaiting(s, sess, sess.code);
      CloseEffect(DropSession(s, sess.sid), sess);
    }
  }

  /** Closing a peer changes nothing but that it is closed. */
  lemma CloseOutcome(s: State, p: PeerId)
    ensures var t := Close(s, p);
            && At(t, p) == At(s, p).(open := false, released := true) && OnlyPeers(s, t, {p})
            && t.codes == s.codes && t.sessions == s.sessions
  {
  }

  // ----- bad messages, limits, sockets -----

  /**
   A bad message costs a sender its undecided session; anybody else it is counted against, and
   the third one closes the socket.
  */
  lemma BadMessageOutcome(s: State, p: PeerId)
    requires Linked(s)
    ensures var t := BadMessage(s, p);
            if At(s, p).sid.Some? && s.sessions[At(s, p).sid.value].sender == p
               && !s.sessions[At(s, p).sid.value].phase.pairDecided then
              t == RestoreWaitingReceiver(s, s.sessions[At(s, p).sid.value])
            else
              && t.codes == s.codes && t.sessions == s.sessions && OnlyPeers(s, t, {p})
              && At(t, p).badMessages == At(s, p).badMessages + 1
              && At(t, p).open == (At(s, p).open && At(t, p).badMessages < 3)
              && SameLinks(At(t, p), At(s, p))
  {
    if At(s, p).sid.Some? {
      SessionOf(s, p);
    }
  }

  /** A closed or released peer is not heard; one that sends too much is closed and not heard. */
  lemma GateOutcome(s: State, p: PeerId, m: Message, env: Env)
    ensures var t := Step(s, Deliver(p, m, env));
            && (!At(s, p).open || At(s, p).released ==> t == s)
            && (At(s, p).open && !At(s, p).released && !env.messageRateOk ==>
                  && !At(t, p).open && At(t, p).released && SameLinks(At(t, p), At(s, p)) && OnlyPeers(s, t, {p})
                  && t.codes == s.codes && t.sessions == s.sessions)
  {
  }

  /** Peers come open and unattached, or closed at once; only a peer that neither waits nor is paired is closed for idling. */
  lemma SocketOutcome(s: State, p: PeerId, overLimit: bool)
    requires Linked(s)
    ensures p !in s.peers ==>
              var t := Step(s, Arrive(p, overLimit));
              At(t, p).open == !overLimit && At(t, p).role.Unset? && At(t, p).sid.None? && At(t, p).code.None?
    ensures var t := Step(s, IdleTimeout(p));
            t == s || (!At(t, p).open && At(s, p).sid.None? && forall c: Code :: !OwnsCode(s, p, c))
    ensures At(s, p).role.Unset? && At(s, p).code.None? && At(s, p).sid.None? ==> !At(Step(s, IdleTimeout(p)), p).open
    ensures var t := Step(s, SocketCloses(p)); !At(t, p).open && t.codes == s.codes && t.sessions == s.sessions && OnlyPeers(s, t, {p})
  {
  }
}
