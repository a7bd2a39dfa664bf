/**
 What holds of every run of the signaling server, and the life of one registration.
*/
module RendezvousTheorems {
  import opened Prelude
  import opened RelayPolicy
  import opened Rendezvous
  import opened RendezvousInvariants

  // ----- where registrations live -----

  /** The registrations held by a waiting entry or by a live session. */
  ghost function Held(s: State): set<RegId> {
    (set c | c in s.codes :: s.codes[c].reg) + (set x | x in s.sessions :: s.sessions[x].reg)
  }

  /** The step opened a session for registration `r`: a sender claimed it. */
  ghost predicate ClaimedIn(s: State, t: State, r: RegId) {
    exists x :: x in t.sessions && x !in s.sessions && t.sessions[x].reg == r
  }

  /** No registration is made, claimed or revived. */
  ghost predicate Quiet(s: State, t: State) {
    && t.registrations == s.registrations
    && t.sessions.Keys <= s.sessions.Keys
    && Held(t) <= Held(s)
  }

  lemma PeerChangeQuiet(s: State, p: PeerId, peer: Peer)
    ensures Quiet(s, SetPeer(s, p, peer))
  {
  }

  lemma DropCodeQuiet(s: State, c: Code)
    ensures Quiet(s, DropCode(s, c))
  {
  }

  lemma ExpireWaitingQuiet(s: State, c: Code, p: PeerId)
    ensures Quiet(s, ExpireWaiting(s, c, p))
  {
    DropCodeQuiet(s, c);
  }

  lemma DropSessionQuiet(s: State, sid: Sid)
    ensures Quiet(s, DropSession(s, sid))
  {
  }

  lemma EndSessionQuiet(s: State, sess: Session, leaving: Side)
    ensures Quiet(s, EndSession(s, sess, leaving))
    ensures Quiet(s, CloseSessionPeers(s, sess))
  {
    DropSessionQuiet(s, sess.sid);
  }

  lemma RequeueQuiet(s: State, sess: Session)
    requires Live(s, sess)
    ensures Quiet(s, Requeue(s, sess))
  {
    assert sess.reg in Held(s);
    var t := Requeue(s, sess);
    forall r | r in Held(t)
      ensures r in Held(s)
    {
      if x :| x in t.sessions && t.sessions[x].reg == r {
        assert x in s.sessions;
      } else {
        var c :| c in t.codes && t.codes[c].reg == r;
        assert c != sess.code ==> c in s.codes && s.codes[c].reg == r;
      }
    }
  }

  lemma RestoreQuiet(s: State, sess: Session)
    requires Linked(s) && Live(s, sess)
    ensures Quiet(s, RestoreWaitingReceiver(s, sess))
  {
    if sess.code in s.codes {
      PairedReceiverIsNotWaiting(s, sess, sess.code);
      DropTwice(s, sess);
      EndSessionQuiet(s, sess, SenderSide);
    } else if !CanRestorePrePairCode(sess.remaining) {
      DropSessionQuiet(s, sess.sid);
    } else {
      RequeueQuiet(s, sess);
      DropCodeQuiet(Close(Requeue(s, sess), sess.sender), sess.code);
    }
  }

  lemma BadMessageQuiet(s: State, p: PeerId)
    requires Linked(s)
    ensures Quiet(s, BadMessage(s, p))
  {
    var sid := At(s, p).sid;
    if sid.Some? && sid.value in s.sessions && SenderCanRestoreReceiver(s.sessions[sid.value], p) {
      RestoreQuiet(s, s.sessions[sid.value]);
    }
  }

  lemma RejectQuiet(s: State, sess: Session, p: PeerId)
    requires Linked(s) && Live(s, sess)
    ensures Quiet(s, RejectRelayMessage(s, sess, p))
  {
    RestoreQuiet(s, sess);
    BadMessageQuiet(s, p);
  }

  lemma DeliveryFailedQuiet(s: State, sess: Session, target: Side, restoreOnSenderFailure: bool)
    requires Linked(s) && Live(s, sess)
    ensures Quiet(s, RelayDeliveryFailed(s, sess, target, restoreOnSenderFailure))
  {
    RestoreQuiet(s, sess);
    EndSessionQuiet(s, sess, target);
  }

  lemma CloseAfterQuiet(s: State, sess: Session, from: Side, kind: Kind)
    ensures Quiet(s, CloseAfter(s, sess, from, kind))
  {
    CloseAfterIsClosed(s, sess, from, kind);
    EndSessionQuiet(s, sess, SenderSide);
  }

  lemma RelayAcceptQuiet(s: State, sess: Session, from: Side, env: Env)
    requires Linked(s) && Live(s, sess)
    ensures Quiet(s, RelayAccept(s, sess, from, env))
  {
    EndSessionQuiet(s, sess, SenderSide);
    DeliveryFailedQuiet(s, sess, OtherSide(from), true);
    CloseAfterQuiet(s, sess, from, PairAccept);
    ForwardQuiet(s, sess, from, PairAccept, env.now);
  }

  lemma RelayQuiet(s: State, p: PeerId, sid: Sid, kind: Kind, manifestOk: bool, env: Env)
    requires Linked(s)
    ensures Quiet(s, HandleRelay(s, p, sid, kind, manifestOk, env))
  {
    if sid in s.sessions {
      var sess := s.sessions[sid];
      assert Live(s, sess);
      var from := SideOf(sess, p);
      RejectQuiet(s, sess, p);
      DeliveryFailedQuiet(s, sess, OtherSide(from), !kind.PairReject?);
      RelayAcceptQuiet(s, sess, from, env);
      RejectEndsSession(s, sess, from, env.now);
      CloseAfterQuiet(s, sess, from, kind);
      ForwardQuiet(s, sess, from, kind, env.now);
    }
  }

  lemma ForwardQuiet(s: State, sess: Session, from: Side, kind: Kind, now: int)
    requires Live(s, sess)
    ensures Quiet(s, Delivered(s, sess, from, kind))
    ensures Quiet(s, Advance(Delivered(s, sess, from, kind), sess, from, kind, now))
  {
    assert sess.reg in Held(s);
  }

  lemma CleanupQuiet(s: State, p: PeerId)
    requires Linked(s)
    ensures Quiet(s, CleanupPeer(s, p))
  {
    var code := At(s, p).code;
    var owns := code.Some? && OwnsCode(s, p, code.value);
    var s1 := if owns then DropCode(s, code.value) else s;
    if owns {
      DropCodeQuiet(s, code.value);
    }
    if At(s1, p).sid.Some? && At(s1, p).sid.value in s1.sessions {
      var sess := s1.sessions[At(s1, p).sid.value];
      RestoreQuiet(s1, sess);
      EndSessionQuiet(s1, sess, SideOf(sess, p));
    }
  }

  lemma ByeQuiet(s: State, p: PeerId, prepairRetry: bool, now: int)
    requires Linked(s)
    ensures Quiet(s, HandleBye(s, p, prepairRetry, now))
  {
    var peer := At(s, p);
    CleanupQuiet(s, p);
    PeerChangeQuiet(CleanupPeer(s, p), p, At(CleanupPeer(s, p), p).(open := false, released := true));
    if peer.sid.None? {
      if peer.code.Some? {
        ExpireWaitingQuiet(s, peer.code.value, p);
      }
    } else if peer.sid.value in s.sessions {
      RestoreQuiet(s, s.sessions[peer.sid.value]);
    }
  }

  lemma SweepQuiet(s: State, e: Event)
    requires Linked(s) && (e.SweepCode? || e.SweepSession?)
    ensures Quiet(s, Step(s, e))
  {
    match e
    case SweepCode(code, now) =>
      if code in s.codes {
        ExpireWaitingQuiet(s, code, s.codes[code].receiver);
      }
    case SweepSession(sid, now) =>
      if sid in s.sessions {
        RestoreQuiet(s, s.sessions[sid]);
        DropTwice(s, s.sessions[sid]);
        EndSessionQuiet(s, s.sessions[sid], SenderSide);
      }
  }

  // ----- the two steps that are not quiet -----

  lemma RegisterMakesOne(s: State, p: PeerId, code: Code, acceptable: bool, env: Env)
    requires Inv(s) && env.freshReg !in s.registrations
    ensures var t := HandleRegister(s, p, code, acceptable, env);
            Quiet(s, t) ||
            (&& t.registrations == s.registrations[env.freshReg := Registration(code, env.now + CODE_TTL_MS, 0)]
             && t.sessions == s.sessions
             && Held(t) <= Held(s) + {env.freshReg})
  {
    var peer := At(s, p);
    if !env.attemptRateOk || peer.sid.Some? || peer.role.Sender? || !acceptable {
    } else if OwnsCode(s, p, code) {
      ExpireWaitingQuiet(s, code, p);
      PeerChangeQuiet(s, p, peer.(role := Receiver, code := Some(code)));
    } else if code !in s.codes {
      EnrolmentIsEnrol(s, p, code, env);
      FreeOwnCodeKeeps(s, p, code);
      DropCodeQuiet(s, if peer.code.Some? then peer.code.value else code);
      EnrolHolds(FreeOwnCode(s, p, code), p, code, env.now + CODE_TTL_MS, env.freshReg);
    }
  }

  lemma EnrolHolds(s: State, p: PeerId, code: Code, expiresAt: int, reg: RegId)
    ensures Held(Enrol(s, p, code, expiresAt, reg)) <= Held(s) + {reg}
  {
  }

  lemma ClaimHolds(s: State, p: PeerId, code: Code, env: Env)
    requires Linked(s) && CanClaim(s, p, code, env) && env.freshSid !in s.sessions
    ensures Held(Claim(s, p, code, env)) <= Held(s)
  {
    ClaimCodes(s, p, code, env);
    ClaimSession(s, p, code, env);
    assert s.codes[code].reg in Held(s);
  }

  /** A connect is quiet or opens one session, which is one more connect served by the claimed registration. */
  lemma ConnectServesOne(s: State, p: PeerId, code: Code, acceptable: bool, env: Env)
    requires Inv(s) && env.freshSid !in s.relayed && At(s, p).open
    ensures var t := HandleConnect(s, p, code, acceptable, env);
            Quiet(s, t) ||
            (&& CanClaim(s, p, code, env)
             && t == Claim(s, p, code, env)
             && Held(t) <= Held(s))
  {
    var peer := At(s, p);
    if env.attemptRateOk && peer.sid.None? && !peer.role.Receiver? && acceptable && code in s.codes {
      var w := s.codes[code];
      ExpireWaitingQuiet(s, code, w.receiver);
      BadMessageQuiet(s, p);
      if WaitingReceiverAvailable(w.expiresAt, env.now, At(s, w.receiver).open)
         && CanRestorePrePairCode(w.remaining) && w.receiver != p && CanCreateSession(|s.sessions|) {
        FreshSidNotLive(s, env.freshSid);
        ClaimHolds(s, p, code, env);
        ClaimPeers(s, p, code, env);
      }
    }
  }

  /** One step of one registration's life: its record is kept, and `served` counts exactly the claims. */
  ghost predicate RecordFollows(s: State, t: State, r: RegId)
    requires r in s.registrations
  {
    && r in t.registrations
    && t.registrations[r].code == s.registrations[r].code
    && t.registrations[r].expiresAt == s.registrations[r].expiresAt
    && t.registrations[r].served == s.registrations[r].served + (if ClaimedIn(s, t, r) then 1 else 0)
  }

  /** All registrations follow, and only new ones can appear among the holders. */
  ghost predicate Follows(s: State, t: State) {
    && (forall r :: r in s.registrations ==> RecordFollows(s, t, r))
    && Held(t) * s.registrations.Keys <= Held(s)
    && (forall r :: r in t.registrations && r !in s.registrations ==>
          t.registrations[r].served == 0 && !ClaimedIn(s, t, r))
  }

  lemma QuietFollows(s: State, t: State)
    requires Quiet(s, t)
    ensures Follows(s, t)
  {
  }

  lemma ClaimFollows(s: State, p: PeerId, code: Code, env: Env)
    requires Inv(s) && CanClaim(s, p, code, env)
    ensures Follows(s, Claim(s, p, code, env))
  {
    FreshSidNotLive(s, env.freshSid);
    ClaimSession(s, p, code, env);
    ClaimHolds(s, p, code, env);
    var t := Claim(s, p, code, env);
    assert t.sessions[env.freshSid].reg == s.codes[code].reg;
    assert s.codes[code].reg in s.registrations;
  }

  lemma RegisterFollows(s: State, p: PeerId, code: Code, acceptable: bool, env: Env)
    requires Inv(s) && env.freshReg !in s.registrations
    ensures Follows(s, HandleRegister(s, p, code, acceptable, env))
  {
    RegisterMakesOne(s, p, code, acceptable, env);
    var t := HandleRegister(s, p, code, acceptable, env);
    if Quiet(s, t) {
      QuietFollows(s, t);
    } else {
      OneMoreFollows(s, t, env.freshReg, Registration(code, env.now + CODE_TTL_MS, 0));
    }
  }

  lemma OneMoreFollows(s: State, t: State, reg: RegId, registration: Registration)
    requires reg !in s.registrations && registration.served == 0
    requires t.registrations == s.registrations[reg := registration] && t.sessions == s.sessions && Held(t) <= Held(s) + {reg}
    ensures Follows(s, t)
  {
  }

  lemma ConnectFollows(s: State, p: PeerId, code: Code, acceptable: bool, env: Env)
    requires Inv(s) && env.freshSid !in s.relayed && At(s, p).open
    ensures Follows(s, HandleConnect(s, p, code, acceptable, env))
  {
    ConnectServesOne(s, p, code, acceptable, env);
    if Quiet(s, HandleConnect(s, p, code, acceptable, env)) {
      QuietFollows(s, HandleConnect(s, p, code, acceptable, env));
    } else {
      ClaimFollows(s, p, code, env);
    }
  }

  lemma DeliverFollows(s: State, p: PeerId, m: Message, env: Env)
    requires Inv(s) && env.freshSid !in s.relayed && env.freshReg !in s.registrations
    ensures Follows(s, HandleMessage(s, p, m, env))
  {
    var t := HandleMessage(s, p, m, env);
    if AcceptsClientMessages(s, p) && env.messageRateOk {
      match m
      case Register(code, acceptable) => RegisterFollows(s, p, code, acceptable, env);
      case Connect(code, acceptable) => ConnectFollows(s, p, code, acceptable, env);
      case Relay(sid, kind, manifestOk) =>
        RelayQuiet(s, p, sid, kind, manifestOk, env);
        QuietFollows(s, t);
      case Bye(prepairRetry) =>
        ByeQuiet(s, p, prepairRetry, env.now);
        QuietFollows(s, t);
      case Malformed =>
        BadMessageQuiet(s, p);
        QuietFollows(s, t);
    } else {
      PeerChangeQuiet(s, p, At(s, p).(open := false, released := true));
      QuietFollows(s, t);
    }
  }

  /** One step of the whole server, seen from the registrations. */
  lemma StepFollows(s: State, e: Event)
    requires Inv(s) && FreshIds(s, e)
    ensures Follows(s, Step(s, e))
  {
    if e.Deliver? {
      DeliverFollows(s, e.peer, e.message, e.env);
    } else if e.Disconnect? {
      DisconnectFollows(s, e.peer);
    } else if e.SweepCode? || e.SweepSession? {
      SweepFollows(s, e);
    } else {
      SocketFollows(s, e);
    }
  }

  lemma SocketFollows(s: State, e: Event)
    requires e.Arrive? || e.IdleTimeout? || e.SocketCloses?
    ensures Follows(s, Step(s, e))
  {
    QuietFollows(s, Step(s, e));
  }

  lemma DisconnectFollows(s: State, p: PeerId)
    requires Inv(s)
    ensures Follows(s, Step(s, Disconnect(p)))
  {
    CleanupQuiet(s, p);
    QuietFollows(s, Step(s, Disconnect(p)));
  }

  lemma SweepFollows(s: State, e: Event)
    requires Inv(s) && (e.SweepCode? || e.SweepSession?)
    ensures Follows(s, Step(s, e))
  {
    SweepQuiet(s, e);
    QuietFollows(s, Step(s, e));
  }

  // ----- runs -----

  lemma PrefixRuns(s: State, events: seq<Event>, i: nat)
    requires i <= |events| && FreshRun(s, events)
    ensures FreshRun(s, events[..i])
  {
    forall k | 0 <= k < i
      ensures events[..i][..k] == events[..k]
    {
    }
  }

  /** Every reachable state satisfies the invariant. */
  lemma {:induction false} EveryRunKeeps(events: seq<Event>)
    requires FreshRun(EMPTY, events)
    ensures Inv(Run(EMPTY, events))
  {
    if events != [] {
      var n := |events| - 1;
      PrefixRuns(EMPTY, events, n);
      EveryRunKeeps(events[..n]);
      assert FreshIds(Run(EMPTY, events[..n]), events[n]);
      StepKeeps(Run(EMPTY, events[..n]), events[n]);
    }
  }

  /** How many of the steps of a run claimed registration `r`. */
  ghost function Claims(events: seq<Event>, r: RegId): nat {
    if events == [] then 0
    else
      var before := Run(EMPTY, events[..|events| - 1]);
      Claims(events[..|events| - 1], r) + (if ClaimedIn(before, Run(EMPTY, events), r) then 1 else 0)
  }

  /** `served` is the number of claims, so three senders at most ever claim one registration. */
  lemma {:induction false} AtMostThreeClaims(events: seq<Event>, r: RegId)
    requires FreshRun(EMPTY, events)
    ensures r in Run(EMPTY, events).registrations ==> Run(EMPTY, events).registrations[r].served == Claims(events, r)
    ensures r !in Run(EMPTY, events).registrations ==> Claims(events, r) == 0
    ensures Claims(events, r) <= RECEIVER_MAX_PREPAIR_ATTEMPTS
  {
    EveryRunKeeps(events);
    if events != [] {
      var n := |events| - 1;
      PrefixRuns(EMPTY, events, n);
      var s := Run(EMPTY, events[..n]);
      AtMostThreeClaims(events[..n], r);
      LastStepFollows(events);
      UnknownIsUnclaimed(Run(EMPTY, events), s, r);
      assert r in s.registrations ==> RecordFollows(s, Run(EMPTY, events), r);
    }
  }

  lemma UnknownIsUnclaimed(t: State, s: State, r: RegId)
    requires Inv(t)
    ensures r !in t.registrations ==> !ClaimedIn(s, t, r)
  {
  }

  /** From `s` to `t` the registration kept its record, and was not revived. */
  ghost predicate KeptForLife(s: State, t: State, r: RegId)
    requires r in s.registrations
  {
    && r in t.registrations
    && t.registrations[r].code == s.registrations[r].code
    && t.registrations[r].expiresAt == s.registrations[r].expiresAt
    && (r !in Held(s) ==> r !in Held(t))
  }

  lemma KeptOneMore(s: State, t: State, u: State, r: RegId)
    requires r in s.registrations && KeptForLife(s, t, r) && Follows(t, u)
    ensures KeptForLife(s, u, r)
  {
    assert RecordFollows(t, u, r);
  }

  /** A registration keeps its code and first expiry for ever; once nobody holds it, nobody ever will. */
  lemma {:induction false} RegistrationForLife(before: seq<Event>, after: seq<Event>, r: RegId)
    requires FreshRun(EMPTY, before + after) && r in Run(EMPTY, before).registrations
    ensures KeptForLife(Run(EMPTY, before), Run(EMPTY, before + after), r)
    decreases |after|
  {
    if after == [] {
      assert before + after == before;
    } else {
      var all := before + after;
      var n := |all| - 1;
      assert all[..n] == before + after[..|after| - 1];
      PrefixRuns(EMPTY, all, n);
      RegistrationForLife(before, after[..|after| - 1], r);
      LastStepFollows(all);
      KeptOneMore(Run(EMPTY, before), Run(EMPTY, all[..n]), Run(EMPTY, all), r);
    }
  }

  lemma LastStepFollows(events: seq<Event>)
    requires FreshRun(EMPTY, events) && events != []
    ensures Follows(Run(EMPTY, events[..|events| - 1]), Run(EMPTY, events))
  {
    var n := |events| - 1;
    PrefixRuns(EMPTY, events, n);
    EveryRunKeeps(events[..n]);
    assert FreshIds(Run(EMPTY, events[..n]), events[n]);
    StepFollows(Run(EMPTY, events[..n]), events[n]);
  }

  /** One registration, one place: never two waiting entries, two sessions, or one of each. */
  lemma OnePlace(events: seq<Event>, r: RegId)
    requires FreshRun(EMPTY, events)
    ensures var s := Run(EMPTY, events);
            && (forall c, d :: c in s.codes && d in s.codes && s.codes[c].reg == r && s.codes[d].reg == r ==> c == d)
            && (forall x, y :: x in s.sessions && y in s.sessions && s.sessions[x].reg == r && s.sessions[y].reg == r ==> x == y)
            && (forall c, x :: c in s.codes && x in s.sessions && s.codes[c].reg == r ==> s.sessions[x].reg != r)
            && (forall c :: c in s.codes && s.codes[c].reg == r ==>
                  && r in s.registrations
                  && s.codes[c].expiresAt == s.registrations[r].expiresAt
                  && s.codes[c].remaining + Claims(events, r) == RECEIVER_MAX_PREPAIR_ATTEMPTS)
            && (forall x :: x in s.sessions && s.sessions[x].reg == r ==>
                  && r in s.registrations
                  && s.sessions[x].codeExpiresAt == s.registrations[r].expiresAt
                  && s.sessions[x].remaining + Claims(events, r) == RECEIVER_MAX_PREPAIR_ATTEMPTS)
  {
    EveryRunKeeps(events);
    AtMostThreeClaims(events, r);
  }

  ghost predicate InSession(s: State, p: PeerId, sid: Sid) {
    sid in s.sessions && (s.sessions[sid].sender == p || s.sessions[sid].receiver == p)
  }

  /**
   No peer waits twice, is in two sessions, or waits while it is paired; whoever waits is an
   unpaired receiver registered under exactly that code.
  */
  lemma PeerInOnePlace(events: seq<Event>, p: PeerId)
    requires FreshRun(EMPTY, events)
    ensures var s := Run(EMPTY, events);
            && (forall c: Code :: OwnsCode(s, p, c) ==>
                  At(s, p).role.Receiver? && At(s, p).sid.None? && At(s, p).code == Some(c))
            && (forall c, d :: OwnsCode(s, p, c) && OwnsCode(s, p, d) ==> c == d)
            && (forall x, y :: InSession(s, p, x) && InSession(s, p, y) ==> x == y)
            && (forall c, x :: OwnsCode(s, p, c) ==> !InSession(s, p, x))
            && (forall x :: x in s.sessions ==> s.sessions[x].sender != s.sessions[x].receiver)
            && (forall x: Sid :: At(s, p).sid == Some(x) <==> InSession(s, p, x))
  {
    EveryRunKeeps(events);
  }

  /** Delivered messages of every session, live or over, are in protocol order and within the bounds. */
  lemma RelayedInOrder(events: seq<Event>, sid: Sid)
    requires FreshRun(EMPTY, events) && sid in Run(EMPTY, events).relayed
    ensures var log := Run(EMPTY, events).relayed[sid];
            && Ordered(log)
            && |log| <= 1032
            && (forall from, kind: Kind :: !kind.Candidate? ==> Count(log, from, kind) <= 1)
            && (forall from :: Count(log, from, Candidate) <= SIGNALING_MAX_ICE_CANDIDATES_PER_PEER)
  {
    EveryRunKeeps(events);
    OrderedLogBounds(Run(EMPTY, events).relayed[sid]);
  }

  /** A session whose messages all came before its deadline never has a deadline past one pairing. */
  lemma DeadlineNeverPast(events: seq<Event>, sid: Sid)
    requires FreshRun(EMPTY, events) && sid in Run(EMPTY, events).sessions
    requires Run(EMPTY, events).sessions[sid].timely
    ensures var sess := Run(EMPTY, events).sessions[sid];
            sess.expiresAt <= sess.createdAt + PAKE_TIMEOUT_MS + 2 * PAIR_TIMEOUT_MS
  {
    EveryRunKeeps(events);
  }

  /** Sessions and codes stay within the two capacities, although a restored code is never checked. */
  lemma CapacityNeverExceeded(events: seq<Event>)
    requires FreshRun(EMPTY, events)
    ensures var s := Run(EMPTY, events);
            && |s.sessions| <= SIGNALING_MAX_SESSIONS
            && |s.codes| + |s.sessions| <= SIGNALING_MAX_WAITING_CODES + SIGNALING_MAX_SESSIONS
  {
    EveryRunKeeps(events);
  }
}
