/**
 The signaling server as the object its module state is: maps that the handlers update in
 place. Every method is proved to take the object to the state that the function of the
 same handler in `Rendezvous` gives; the invariants and theorems are about those functions.
*/
module SignalingServer {
  import opened Prelude
  import opened RelayPolicy
  import opened Rendezvous
  import opened RendezvousInvariants
  import opened RendezvousTheorems
  import opened RendezvousService
  import opened RendezvousEffects

  class Server {
    var peers: map<PeerId, Peer>
    var codes: map<Code, Waiting>
    var sessions: map<Sid, Session>
    ghost var registrations: map<RegId, Registration>
    ghost var relayed: map<Sid, seq<Relayed>>

    ghost function View(): State
      reads this
    {
      State(peers, codes, sessions, registrations, relayed)
    }

    constructor ()
      ensures View() == EMPTY && Inv(View())
    {
      peers, codes, sessions := map[], map[], map[];
      registrations, relayed := map[], map[];
      new;
      assert FreshRun(EMPTY, []);
      EveryRunKeeps([]);
    }

    method PeerAt(p: PeerId) returns (peer: Peer)
      ensures peer == At(View(), p)
    {
      peer := if p in peers then peers[p] else ABSENT_PEER;
    }

    /** Whether a send to this peer succeeds. */
    method Send(p: PeerId) returns (sent: bool)
      ensures sent == At(View(), p).open
    {
      var peer := PeerAt(p);
      sent := peer.open;
    }

    method WaitingReceiver(code: Code) returns (owner: Option<PeerId>)
      ensures owner.Some? <==> code in codes
      ensures owner.Some? ==> OwnsCode(View(), owner.value, code)
    {
      owner := if code in codes then Some(codes[code].receiver) else None;
    }

    method ClearPeerSessionState(p: PeerId)
      modifies this
      ensures View() == ClearPeer(old(View()), p)
    {
      var peer := PeerAt(p);
      peers := peers[p := peer.(role := Unset, sid := None, code := None)];
    }

    method ClosePeerAndRelease(p: PeerId)
      modifies this
      ensures View() == Close(old(View()), p)
    {
      var peer := PeerAt(p);
      peers := peers[p := peer.(open := false, released := true)];
    }

    method ExpireWaitingReceiver(code: Code, receiver: PeerId)
      modifies this
      ensures View() == ExpireWaiting(old(View()), code, receiver)
    {
      codes := codes - {code};
      ClearPeerSessionState(receiver);
      ClosePeerAndRelease(receiver);
    }

    method CloseBothPeers(sess: Session)
      modifies this
      ensures View() == CloseSessionPeers(old(View()), sess)
    {
      sessions := sessions - {sess.sid};
      ClearPeerSessionState(sess.sender);
      ClearPeerSessionState(sess.receiver);
      ClosePeerAndRelease(sess.sender);
      ClosePeerAndRelease(sess.receiver);
    }

    method FinishSession(sess: Session, leaving: Side)
      modifies this
      ensures View() == EndSession(old(View()), sess, leaving)
    {
      sessions := sessions - {sess.sid};
      var remaining := if leaving.SenderSide? then sess.receiver else sess.sender;
      ClearPeerSessionState(sess.sender);
      ClearPeerSessionState(sess.receiver);
      ClosePeerAndRelease(remaining);
    }

    method ExpireReceiver(sess: Session, existing: bool)
      modifies this
      ensures View() == ExpireReceiverAfterPrePairAttempts(old(View()), sess, existing)
    {
      if existing {
        codes := codes - {sess.code};
      }
      ClearPeerSessionState(sess.sender);
      ClearPeerSessionState(sess.receiver);
      ClosePeerAndRelease(sess.sender);
      ClosePeerAndRelease(sess.receiver);
    }

    method AnnounceRestored(sess: Session)
      modifies this
      ensures View() == SendRestoredRegistration(old(View()), sess)
    {
      var sent := Send(sess.receiver);
      if sent {
        return;
      }
      var owner := WaitingReceiver(sess.code);
      if owner == Some(sess.receiver) {
        codes := codes - {sess.code};
      }
      ClearPeerSessionState(sess.receiver);
      ClosePeerAndRelease(sess.receiver);
    }

    method UnpairPeers(sess: Session)
      modifies this
      ensures View() == Unpair(old(View()), sess)
    {
      sessions := sessions - {sess.sid};
      ClearPeerSessionState(sess.sender);
      var receiver := PeerAt(sess.receiver);
      peers := peers[sess.receiver := receiver.(sid := None, role := Receiver, code := Some(sess.code))];
    }

    method Restore(sess: Session)
      modifies this
      ensures View() == RestoreWaitingReceiver(old(View()), sess)
    {
      if sess.code in codes {
        var existing := codes[sess.code];
        if existing.receiver == sess.receiver {
          UnpairPeers(sess);
          var merged := existing.(remaining := Min(existing.remaining, sess.remaining));
          codes := codes[sess.code := merged];
          if !CanRestorePrePairCode(merged.remaining) {
            ExpireReceiver(sess, true);
          } else {
            ClosePeerAndRelease(sess.sender);
            AnnounceRestored(sess);
          }
        } else {
          sessions := sessions - {sess.sid};
          CloseBothPeers(sess);
        }
        return;
      }
      UnpairPeers(sess);
      if !CanRestorePrePairCode(sess.remaining) {
        ExpireReceiver(sess, false);
        return;
      }
      codes := codes[sess.code := Waiting(sess.receiver, sess.codeExpiresAt, sess.remaining, sess.reg)];
      ClosePeerAndRelease(sess.sender);
      AnnounceRestored(sess);
    }

    method CountBadMessage(p: PeerId)
      modifies this
      ensures View() == BadMessage(old(View()), p)
    {
      var peer := PeerAt(p);
      if peer.sid.Some? && peer.sid.value in sessions && SenderCanRestoreReceiver(sessions[peer.sid.value], p) {
        Restore(sessions[peer.sid.value]);
        return;
      }
      peers := peers[p := peer.(badMessages := peer.badMessages + 1)];
      if peer.badMessages + 1 >= SIGNALING_MAX_BAD_MESSAGES {
        ClosePeerAndRelease(p);
      }
    }

    /** In a reachable state: who waits afterwards, and who does not. */
    method OnRegister(p: PeerId, code: Code, acceptable: bool, env: Env)
      requires Inv(View()) && env.freshReg !in registrations
      modifies this
      ensures View() == HandleRegister(old(View()), p, code, acceptable, env)
      ensures RegisterDone(old(View()), View(), p, code, acceptable, env)
    {
      RegisterOutcome(View(), p, code, acceptable, env);
      RegisterPeer(p, code, acceptable, env);
    }

    method RegisterPeer(p: PeerId, code: Code, acceptable: bool, env: Env)
      modifies this
      ensures View() == HandleRegister(old(View()), p, code, acceptable, env)
    {
      var peer := PeerAt(p);
      if !env.attemptRateOk || peer.sid.Some? || peer.role.Sender? || !acceptable {
        return;
      }
      var owner := WaitingReceiver(code);
      if owner == Some(p) {
        if !WaitingReceiverAvailable(codes[code].expiresAt, env.now, peer.open) {
          ExpireWaitingReceiver(code, p);
          return;
        }
        peers := peers[p := peer.(role := Receiver, code := Some(code))];
        return;
      }
      if owner.Some? {
        return;
      }
      var replacing := false;
      if peer.code.Some? && peer.code.value != code {
        var previousOwner := WaitingReceiver(peer.code.value);
        replacing := previousOwner == Some(p);
      }
      EnrolmentIsEnrol(View(), p, code, env);
      if !CanRegisterWaitingCode(|codes|, replacing) {
        return;
      }
      if replacing {
        codes := codes - {peer.code.value};
      }
      EnrolReceiver(p, code, env.now + CODE_TTL_MS, env.freshReg);
    }

    method EnrolReceiver(p: PeerId, code: Code, expiresAt: int, reg: RegId)
      modifies this
      ensures View() == Enrol(old(View()), p, code, expiresAt, reg)
    {
      var peer := PeerAt(p);
      peers := peers[p := peer.(role := Receiver, code := Some(code))];
      codes := codes[code := Waiting(p, expiresAt, RECEIVER_MAX_PREPAIR_ATTEMPTS, reg)];
      registrations := registrations[reg := Registration(code, expiresAt, 0)];
    }

    method StartSession(p: PeerId, code: Code, waiting: Waiting, env: Env) returns (sess: Session)
      modifies this
      ensures (View(), sess) == OpenSession(old(View()), p, code, waiting, env)
    {
      codes := codes - {code};
      var peer := PeerAt(p);
      if peer.code.Some? {
        var owner := WaitingReceiver(peer.code.value);
        if owner == Some(p) {
          codes := codes - {peer.code.value};
        }
      }
      peers := peers[p := peer.(role := Sender, sid := Some(env.freshSid), code := Some(code))];
      var receiver := PeerAt(waiting.receiver);
      peers := peers[waiting.receiver := receiver.(sid := Some(env.freshSid))];
      sess := Session(env.freshSid, code, waiting.expiresAt, p, waiting.receiver,
                      InitialSessionExpiresAt(env.now), INITIAL_PHASE, waiting.remaining - 1, waiting.reg, env.now, true);
      sessions := sessions[env.freshSid := sess];
      registrations := registrations[waiting.reg := Served(View(), waiting.reg)];
      relayed := relayed[env.freshSid := []];
    }

    method Announce(sess: Session)
      modifies this
      ensures View() == AnnounceSession(old(View()), sess)
    {
      var receiverTold := Send(sess.receiver);
      if !receiverTold {
        sessions := sessions - {sess.sid};
        ClearPeerSessionState(sess.sender);
        ClearPeerSessionState(sess.receiver);
        ClosePeerAndRelease(sess.receiver);
        return;
      }
      var senderTold := Send(sess.sender);
      if !senderTold {
        Restore(sess);
      }
    }

    /** In a reachable state: exactly when the two are paired. */
    method OnConnect(p: PeerId, code: Code, acceptable: bool, env: Env)
      requires Inv(View()) && env.freshSid !in relayed && At(View(), p).open
      modifies this
      ensures View() == HandleConnect(old(View()), p, code, acceptable, env)
      ensures ConnectDone(old(View()), View(), p, code, acceptable, env)
    {
      ConnectOutcome(View(), p, code, acceptable, env);
      ConnectPeer(p, code, acceptable, env);
    }

    method ConnectPeer(p: PeerId, code: Code, acceptable: bool, env: Env)
      modifies this
      ensures View() == HandleConnect(old(View()), p, code, acceptable, env)
    {
      var peer := PeerAt(p);
      if !env.attemptRateOk || peer.sid.Some? || peer.role.Receiver? || !acceptable || code !in codes {
        return;
      }
      var waiting := codes[code];
      var receiver := PeerAt(waiting.receiver);
      if !WaitingReceiverAvailable(waiting.expiresAt, env.now, receiver.open) {
        ExpireWaitingReceiver(code, waiting.receiver);
      } else if !CanRestorePrePairCode(waiting.remaining) {
        ExpireWaitingReceiver(code, waiting.receiver);
      } else if waiting.receiver == p {
        CountBadMessage(p);
      } else if CanCreateSession(|sessions|) {
        var sess := StartSession(p, code, waiting, env);
        Announce(sess);
      }
    }

    method RejectRelay(sess: Session, p: PeerId)
      modifies this
      ensures View() == RejectRelayMessage(old(View()), sess, p)
    {
      if SenderCanRestoreReceiver(sess, p) {
        Restore(sess);
      } else {
        CountBadMessage(p);
      }
    }

    method DeliveryFailed(sess: Session, target: Side, restoreOnSenderFailure: bool)
      modifies this
      ensures View() == RelayDeliveryFailed(old(View()), sess, target, restoreOnSenderFailure)
    {
      if restoreOnSenderFailure && target.SenderSide? && BeforePairAcceptance(sess) {
        Restore(sess);
      } else {
        FinishSession(sess, target);
      }
    }

    method Forward(sess: Session, from: Side, kind: Kind)
      modifies this`relayed
      ensures View() == Delivered(old(View()), sess, from, kind)
    {
      relayed := Delivered(View(), sess, from, kind).relayed;
    }

    method AdvancePhase(sess: Session, from: Side, kind: Kind, now: int)
      modifies this
      ensures View() == Advance(old(View()), sess, from, kind, now)
    {
      var next := sess.(phase := Apply(sess.phase, from, kind),
                        expiresAt := NextSessionExpiresAt(sess.expiresAt, now, kind),
                        timely := sess.timely && now <= sess.expiresAt);
      sessions := sessions[sess.sid := next];
    }

    method OnPairAccept(sess: Session, from: Side, env: Env)
      modifies this
      ensures View() == RelayAccept(old(View()), sess, from, env)
    {
      if !env.turnForSender {
        CloseBothPeers(sess);
        return;
      }
      var target := SidePeer(sess, OtherSide(from));
      var iceSent := Send(sess.sender);
      var sent := Send(target);
      if !iceSent || !sent {
        DeliveryFailed(sess, OtherSide(from), true);
        return;
      }
      Forward(sess, from, PairAccept);
      if !env.turnForReceiver {
        CloseBothPeers(sess);
        return;
      }
      iceSent := Send(sess.receiver);
      if !iceSent {
        CloseBothPeers(sess);
        return;
      }
      AdvancePhase(sess, from, PairAccept, env.now);
    }

    /** In a reachable state: exactly when the message is passed on. */
    method OnRelay(p: PeerId, sid: Sid, kind: Kind, manifestOk: bool, env: Env)
      requires Inv(View())
      modifies this
      ensures View() == HandleRelay(old(View()), p, sid, kind, manifestOk, env)
      ensures RelayDone(old(View()), View(), p, sid, kind, manifestOk, env)
    {
      RelayOutcome(View(), p, sid, kind, manifestOk, env);
      PassOn(p, sid, kind, manifestOk, env);
    }

    method PassOn(p: PeerId, sid: Sid, kind: Kind, manifestOk: bool, env: Env)
      modifies this
      ensures View() == HandleRelay(old(View()), p, sid, kind, manifestOk, env)
    {
      if sid !in sessions {
        return;
      }
      var sess := sessions[sid];
      if sess.sender != p && sess.receiver != p {
        return;
      }
      var from := SideOf(sess, p);
      if (kind.PairRequest? && !manifestOk) || !AllowedForRole(from, kind) || !AllowedForPhase(sess.phase, from, kind) {
        RejectRelay(sess, p);
        return;
      }
      var reachable := Send(SidePeer(sess, OtherSide(from)));
      if !reachable {
        DeliveryFailed(sess, OtherSide(from), !kind.PairReject?);
      } else if kind.PairAccept? {
        OnPairAccept(sess, from, env);
      } else {
        Forward(sess, from, kind);
        AdvancePhase(sess, from, kind, env.now);
        if kind.PairReject? {
          CloseBothPeers(sess);
        }
      }
    }

    method Cleanup(p: PeerId)
      modifies this
      ensures View() == CleanupPeer(old(View()), p)
    {
      var peer := PeerAt(p);
      if peer.code.Some? {
        var owner := WaitingReceiver(peer.code.value);
        if owner == Some(p) {
          codes := codes - {peer.code.value};
        }
      }
      if peer.sid.None? || peer.sid.value !in sessions {
        return;
      }
      var sess := sessions[peer.sid.value];
      if SenderCanRestoreReceiver(sess, p) {
        Restore(sess);
      } else if sess.sender == p || sess.receiver == p {
        FinishSession(sess, SideOf(sess, p));
      }
    }

    method Retry(p: PeerId, now: int) returns (handled: bool)
      modifies this
      ensures handled == RetryReceiver(old(View()), p, now).Some?
      ensures View() == if handled then RetryReceiver(old(View()), p, now).value else old(View())
    {
      var peer := PeerAt(p);
      if peer.sid.None? {
        if peer.code.None? {
          return false;
        }
        var owner := WaitingReceiver(peer.code.value);
        if owner != Some(p) {
          return false;
        }
        if !WaitingReceiverAvailable(codes[peer.code.value].expiresAt, now, peer.open) {
          ExpireWaitingReceiver(peer.code.value, p);
        }
        return true;
      }
      if peer.sid.value !in sessions {
        return false;
      }
      var sess := sessions[peer.sid.value];
      if sess.receiver != p || !BeforePairAcceptance(sess) {
        return false;
      }
      Restore(sess);
      return true;
    }

    method OnBye(p: PeerId, prepairRetry: bool, now: int)
      modifies this
      ensures View() == HandleBye(old(View()), p, prepairRetry, now)
    {
      if prepairRetry {
        var handled := Retry(p, now);
        if handled {
          return;
        }
      }
      Cleanup(p);
      ClosePeerAndRelease(p);
    }

    method OnMessage(p: PeerId, m: Message, env: Env)
      requires Inv(View()) && FreshIds(View(), Deliver(p, m, env))
      modifies this
      ensures View() == Step(old(View()), Deliver(p, m, env))
      ensures Inv(View())
    {
      StepKeeps(View(), Deliver(p, m, env));
      var peer := PeerAt(p);
      if !peer.open || peer.released {
        return;
      }
      if !env.messageRateOk {
        ClosePeerAndRelease(p);
        return;
      }
      match m
      case Register(code, acceptable) => OnRegister(p, code, acceptable, env);
      case Connect(code, acceptable) => OnConnect(p, code, acceptable, env);
      case Relay(sid, kind, manifestOk) => OnRelay(p, sid, kind, manifestOk, env);
      case Bye(prepairRetry) => OnBye(p, prepairRetry, env.now);
      case Malformed => CountBadMessage(p);
    }

    method OnDisconnect(p: PeerId)
      requires Inv(View())
      modifies this
      ensures View() == Step(old(View()), Disconnect(p))
      ensures Inv(View())
    {
      StepKeeps(View(), Disconnect(p));
      Release(p);
    }

    method Release(p: PeerId)
      modifies this
      ensures View() == Step(old(View()), Disconnect(p))
    {
      Cleanup(p);
      ghost var left := View();
      var peer := PeerAt(p);
      peers := peers[p := Released(peer)];
      assert View() == SetPeer(left, p, Released(At(left, p)));
    }

    // ----- the expiry sweep -----

    method SweepCodeEntry(c: Code, now: int)
      modifies this
      ensures View() == Step(old(View()), SweepCode(c, now))
      ensures forall d :: d in codes ==> d in old(codes) && codes[d] == old(codes)[d]
      ensures c in codes ==> codes[c].expiresAt > now
    {
      if c in codes && codes[c].expiresAt <= now {
        ExpireWaitingReceiver(c, codes[c].receiver);
      }
    }

    method SweepCodeTurn(c: Code, now: int, ghost start: State, ghost todo: set<Code>)
      requires Linked(View()) && c in todo && NoCodeExpired(View(), todo, now) && ReceiversLetGo(start, View(), todo, now)
      modifies this
      ensures View() == Step(old(View()), SweepCode(c, now))
      ensures NoCodeExpired(View(), todo - {c}, now) && ReceiversLetGo(start, View(), todo - {c}, now)
    {
      SweepLetsGo(start, View(), todo, c, now);
      SweepCodeEntry(c, now);
    }

    method SweepCodes(now: int) returns (ghost trace: seq<Event>)
      requires Inv(View())
      modifies this
      ensures SweepsAt(trace, now) && View() == Run(old(View()), trace)
      ensures NoCodeExpired(View(), {}, now) && ReceiversLetGo(old(View()), View(), {}, now)
    {
      var todo := codes.Keys;
      trace := [];
      while todo != {}
        invariant SweepsAt(trace, now) && View() == Run(old(View()), trace)
        invariant NoCodeExpired(View(), todo, now) && ReceiversLetGo(old(View()), View(), todo, now)
        decreases todo
      {
        var c :| c in todo;
        assert Linked(View()) by {
          SweepsKeep(old(View()), trace, now);
        }
        SweepCodeTurn(c, now, old(View()), todo);
        todo := todo - {c};
        RunOneMore(old(View()), trace, SweepCode(c, now));
        trace := trace + [SweepCode(c, now)];
      }
    }

    method SweepSessionEntry(x: Sid, now: int, ghost todo: set<Sid>)
      requires Linked(View()) && NoCodeExpired(View(), {}, now) && NoSessionExpired(View(), todo, now)
      modifies this
      ensures View() == Step(old(View()), SweepSession(x, now))
      ensures NoCodeExpired(View(), {}, now) && NoSessionExpired(View(), todo - {x}, now)
    {
      SweepSessionEffect(View(), x, todo, now);
      ExpireSession(x, now);
    }

    method ExpireSession(x: Sid, now: int)
      requires SessionsLinked(View())
      modifies this
      ensures View() == SweepOneSession(old(View()), x, now)
    {
      if x in sessions && sessions[x].expiresAt <= now {
        SweepLiveSession(sessions[x], now);
      }
    }

    method SweepSessions(now: int) returns (ghost trace: seq<Event>)
      requires Inv(View()) && NoCodeExpired(View(), {}, now)
      modifies this
      ensures SweepsAt(trace, now) && View() == Run(old(View()), trace)
      ensures NoCodeExpired(View(), {}, now) && NoSessionExpired(View(), {}, now)
    {
      var todo := sessions.Keys;
      trace := [];
      while todo != {}
        invariant SweepsAt(trace, now) && View() == Run(old(View()), trace)
        invariant NoCodeExpired(View(), {}, now) && NoSessionExpired(View(), todo, now)
        decreases todo
      {
        var x :| x in todo;
        assert Linked(View()) by {
          SweepsKeep(old(View()), trace, now);
        }
        SweepSessionEntry(x, now, todo);
        todo := todo - {x};
        RunOneMore(old(View()), trace, SweepSession(x, now));
        trace := trace + [SweepSession(x, now)];
      }
    }

    method SweepLiveSession(sess: Session, now: int)
      requires Live(View(), sess) && sess.expiresAt <= now
      modifies this
      ensures View() == SweepOneSession(old(View()), sess.sid, now)
    {
      var receiver := PeerAt(sess.receiver);
      if BeforePairAcceptance(sess) && sess.codeExpiresAt > now && receiver.open {
        Restore(sess);
      } else {
        sessions := sessions - {sess.sid};
        CloseBothPeers(sess);
      }
    }

    /**
     One tick of the expiry timer is a run of sweep steps that leaves nothing expired behind,
     lets go the receivers of expired codes, and leaves all that is not expired alone.
    */
    method Sweep(now: int) returns (ghost trace: seq<Event>)
      requires Inv(View())
      modifies this
      ensures Inv(View())
      ensures SweepsAt(trace, now) && View() == Run(old(View()), trace)
      ensures NoCodeExpired(View(), {}, now) && NoSessionExpired(View(), {}, now)
      ensures Spared(old(View()), View(), now) && ReceiversLetGo(old(View()), View(), {}, now)
    {
      ghost var first := SweepCodes(now);
      SweepsKeep(old(View()), first, now);
      ghost var between := View();
      ghost var second := SweepSessions(now);
      LetGoForGood(old(View()), between, second, now);
      RunConcat(old(View()), first, second);
      trace := first + second;
      SweepsKeep(old(View()), trace, now);
      SweepsSpare(old(View()), trace, now);
    }
  }

  /** All events of the trace are sweep steps at one time. */
  ghost predicate SweepsAt(trace: seq<Event>, now: int) {
    forall e :: e in trace ==> (e.SweepCode? || e.SweepSession?) && e.now == now
  }

  /** Every code outside `todo` expires later than `now`. */
  ghost predicate NoCodeExpired(s: State, todo: set<Code>, now: int) {
    forall c :: c in s.codes && c !in todo ==> s.codes[c].expiresAt > now
  }

  ghost predicate NoSessionExpired(s: State, todo: set<Sid>, now: int) {
    forall x :: x in s.sessions && x !in todo ==> s.sessions[x].expiresAt > now
  }

  lemma {:induction false} SweepsKeep(s: State, trace: seq<Event>, now: int)
    requires Inv(s) && SweepsAt(trace, now)
    ensures Inv(Run(s, trace))
    decreases |trace|
  {
    if trace != [] {
      var n := |trace| - 1;
      assert trace[n] in trace;
      SweepsKeep(s, trace[..n], now);
      StepKeeps(Run(s, trace[..n]), trace[n]);
    }
  }

  /** The receivers of entries that have expired and are not to do any more are let go; the entries to do are as before. */
  ghost predicate ReceiversLetGo(s: State, t: State, todo: set<Code>, now: int) {
    && (forall c :: c in s.codes && s.codes[c].expiresAt <= now && c !in todo ==> LetGo(t, s.codes[c].receiver))
    && (forall c :: c in todo ==> c in s.codes && c in t.codes && t.codes[c] == s.codes[c])
  }

  lemma SweepLetsGo(s: State, t: State, todo: set<Code>, c: Code, now: int)
    requires Linked(t) && c in todo && ReceiversLetGo(s, t, todo, now)
    ensures ReceiversLetGo(s, Step(t, SweepCode(c, now)), todo - {c}, now)
  {
    var u := Step(t, SweepCode(c, now));
    SweptCode(t, c, now);
    forall d | d in s.codes && s.codes[d].expiresAt <= now && d !in todo - {c}
      ensures LetGo(u, s.codes[d].receiver)
    {
      if d != c {
        GoneStays(t, SweepCode(c, now), s.codes[d].receiver);
      }
    }
  }

  lemma {:induction false} LetGoForGood(s: State, t: State, trace: seq<Event>, now: int)
    requires Inv(t) && SweepsAt(trace, now) && ReceiversLetGo(s, t, {}, now)
    ensures ReceiversLetGo(s, Run(t, trace), {}, now)
    decreases |trace|
  {
    if trace != [] {
      var n := |trace| - 1;
      assert trace[n] in trace;
      LetGoForGood(s, t, trace[..n], now);
      SweepsKeep(t, trace[..n], now);
      forall c | c in s.codes && s.codes[c].expiresAt <= now
        ensures LetGo(Run(t, trace), s.codes[c].receiver)
      {
        GoneStays(Run(t, trace[..n]), trace[n], s.codes[c].receiver);
      }
    }
  }

  lemma {:induction false} SweepsSpare(s: State, trace: seq<Event>, now: int)
    requires Inv(s) && SweepsAt(trace, now)
    ensures Spared(s, Run(s, trace), now)
    decreases |trace|
  {
    if trace != [] {
      var n := |trace| - 1;
      var t := Run(s, trace[..n]);
      assert trace[n] in trace;
      SweepsSpare(s, trace[..n], now);
      SweepsKeep(s, trace[..n], now);
      match trace[n]
      case SweepCode(c, _) => SweptCodeSpares(t, c, now);
      case SweepSession(x, _) => SweptSessionSpares(t, x, now);
      SparedTwice(s, t, Run(s, trace), now);
    }
  }

  lemma RunOneMore(s: State, events: seq<Event>, e: Event)
    ensures Run(s, events + [e]) == Step(Run(s, events), e)
  {
    assert (events + [e])[..|events|] == events;
  }

  lemma {:induction false} RunConcat(s: State, first: seq<Event>, second: seq<Event>)
    ensures Run(s, first + second) == Run(Run(s, first), second)
    decreases |second|
  {
    if second == [] {
      assert first + second == first;
    } else {
      var n := |second| - 1;
      RunConcat(s, first, second[..n]);
      assert first + second == first + second[..n] + [second[n]];
      RunOneMore(s, first + second[..n], second[n]);
      assert second == second[..n] + [second[n]];
      RunOneMore(Run(s, first), second[..n], second[n]);
    }
  }

  /** Restoring a receiver removes that session only, and brings back that code only. */
  lemma RestoreEffect(s: State, sess: Session)
    requires Linked(s) && Live(s, sess)
    ensures var t := RestoreWaitingReceiver(s, sess);
            && t.sessions == s.sessions - {sess.sid}
            && (forall c :: c in t.codes ==>
                  if c == sess.code && c !in s.codes then t.codes[c].expiresAt == sess.codeExpiresAt
                  else c in s.codes && t.codes[c] == s.codes[c])
  {
    if sess.code in s.codes {
      RestoreToTakenCode(s, sess);
    } else {
      RestoreToFreeCode(s, sess);
    }
  }

  lemma RestoreToTakenCode(s: State, sess: Session)
    requires Linked(s) && Live(s, sess) && sess.code in s.codes
    ensures var t := RestoreWaitingReceiver(s, sess);
            t.sessions == s.sessions - {sess.sid} && t.codes == s.codes
  {
    PairedReceiverIsNotWaiting(s, sess, sess.code);
    DropTwice(s, sess);
  }

  lemma RestoreToFreeCode(s: State, sess: Session)
    requires Live(s, sess) && sess.code !in s.codes
    ensures var t := RestoreWaitingReceiver(s, sess);
            && t.sessions == s.sessions - {sess.sid}
            && (forall c :: c in t.codes ==>
                  if c == sess.code then t.codes[c].expiresAt == sess.codeExpiresAt
                  else c in s.codes && t.codes[c] == s.codes[c])
  {
  }

  /** Sweeping one session expires it or leaves it unexpired, and brings back no expired code. */
  lemma SweepSessionEffect(s: State, sid: Sid, todo: set<Sid>, now: int)
    requires Linked(s) && NoCodeExpired(s, {}, now) && NoSessionExpired(s, todo, now)
    ensures var t := SweepOneSession(s, sid, now);
            NoCodeExpired(t, {}, now) && NoSessionExpired(t, todo - {sid}, now)
  {
    if sid in s.sessions && s.sessions[sid].expiresAt <= now {
      RestoreEffect(s, s.sessions[sid]);
      DropTwice(s, s.sessions[sid]);
    }
  }
}
