/**
 The signaling server's rendezvous state as values, with one function per handler.

 Peers are identified by their (unique) ids, so an object reference of the server
 becomes an id and the peer's fields live in `peers`. A socket is either open or not:
 a send to an open socket succeeds, a send to any other socket returns false.

 Some components are history, not server state: the registration id `reg` carried from a
 waiting entry to the session and back, the table `registrations` of all registrations
 ever made, the list `relayed` of the messages delivered in each session, and a session's
 `createdAt` and `timely` (no message so far came after the deadline of its moment).
*/
module Rendezvous {
  import opened Prelude
  import opened RelayPolicy

  type PeerId = nat
  type Code = nat
  type Sid = nat
  type RegId = nat

  const CODE_TTL_MS: int := 10 * 60 * 1000
  const CONNECT_TIMEOUT_MS: int := 45 * 1000
  const PAKE_TIMEOUT_MS: int := CONNECT_TIMEOUT_MS * 2 + 15 * 1000
  const PAIR_TIMEOUT_MS: int := 5 * 60 * 1000
  const RECEIVER_MAX_PREPAIR_ATTEMPTS: int := 3
  const SIGNALING_MAX_BAD_MESSAGES: nat := 3
  const SIGNALING_MAX_WAITING_CODES: nat := 10_000
  const SIGNALING_MAX_SESSIONS: nat := 10_000

  datatype Role = Unset | Sender | Receiver

  datatype Peer = Peer(
    role: Role,
    sid: Option<Sid>,
    code: Option<Code>,
    open: bool,
    released: bool,
    badMessages: nat)

  const FRESH_PEER := Peer(Unset, None, None, true, false, 0)
  const ABSENT_PEER := Peer(Unset, None, None, false, true, 0)

  datatype Waiting = Waiting(receiver: PeerId, expiresAt: int, remaining: int, reg: RegId)

  datatype Session = Session(
    sid: Sid,
    code: Code,
    codeExpiresAt: int,
    sender: PeerId,
    receiver: PeerId,
    expiresAt: int,
    phase: Phase,
    remaining: int,
    reg: RegId,
    createdAt: int,
    timely: bool)

  /** What is remembered of a registration for ever: its code, its first expiry, the connects it served. */
  datatype Registration = Registration(code: Code, expiresAt: int, served: nat)

  datatype State = State(
    peers: map<PeerId, Peer>,
    codes: map<Code, Waiting>,
    sessions: map<Sid, Session>,
    registrations: map<RegId, Registration>,
    relayed: map<Sid, seq<Relayed>>)

  const EMPTY := State(map[], map[], map[], map[], map[])

  /** The messages a client can send, after parsing. */
  datatype Message =
    | Register(code: Code, acceptable: bool)
    | Connect(code: Code, acceptable: bool)
    | Relay(sid: Sid, kind: Kind, manifestOk: bool)
    | Bye(prepairRetry: bool)
    | Malformed

  /** What the surroundings decide while a message is handled. */
  datatype Env = Env(
    now: int,
    messageRateOk: bool,
    attemptRateOk: bool,
    freshSid: Sid,
    freshReg: RegId,
    turnForSender: bool,
    turnForReceiver: bool)

  datatype Event =
    | Arrive(peer: PeerId, overLimit: bool)
    | IdleTimeout(peer: PeerId)
    | Deliver(peer: PeerId, message: Message, env: Env)
    | SocketCloses(peer: PeerId)
    | Disconnect(peer: PeerId)
    | SweepCode(code: Code, now: int)
    | SweepSession(sid: Sid, now: int)

  // ----- waiting.ts, capacity.ts, prepair-attempts.ts, session-expiry.ts -----

  predicate WaitingReceiverAvailable(expiresAt: int, now: int, open: bool) { expiresAt > now && open }

  predicate CanRegisterWaitingCode(waitingCodes: nat, replacingOwnCode: bool) {
    replacingOwnCode || waitingCodes < SIGNALING_MAX_WAITING_CODES
  }

  predicate CanCreateSession(activeSessions: nat) { activeSessions < SIGNALING_MAX_SESSIONS }

  predicate CanRestorePrePairCode(remaining: int) { 0 < remaining <= RECEIVER_MAX_PREPAIR_ATTEMPTS }

  function InitialSessionExpiresAt(now: int): int { now + PAKE_TIMEOUT_MS }

  function NextSessionExpiresAt(current: int, now: int, kind: Kind): int {
    if kind.PairRequest? || kind.PairAccept? then now + PAIR_TIMEOUT_MS else current
  }

  predicate BeforePairAcceptance(sess: Session) { !sess.phase.pairDecided }

  // ----- field access -----

  function At(s: State, p: PeerId): Peer { if p in s.peers then s.peers[p] else ABSENT_PEER }

  predicate OwnsCode(s: State, p: PeerId, c: Code) { c in s.codes && s.codes[c].receiver == p }

  predicate AcceptsClientMessages(s: State, p: PeerId) { At(s, p).open && !At(s, p).released }

  // ----- small state changes -----

  function SetPeer(s: State, p: PeerId, peer: Peer): State { s.(peers := s.peers[p := peer]) }

  function ClearPeer(s: State, p: PeerId): State {
    SetPeer(s, p, At(s, p).(role := Unset, sid := None, code := None))
  }

  /** closePeerAndRelease: the socket leaves the OPEN state and no further message is accepted. */
  function Close(s: State, p: PeerId): State { SetPeer(s, p, At(s, p).(open := false, released := true)) }

  function DropCode(s: State, c: Code): State { s.(codes := s.codes - {c}) }

  function DropSession(s: State, sid: Sid): State { s.(sessions := s.sessions - {sid}) }

  function ExpireWaiting(s: State, c: Code, receiver: PeerId): State {
    Close(ClearPeer(DropCode(s, c), receiver), receiver)
  }

  function CloseSessionPeers(s: State, sess: Session): State {
    Close(Close(ClearPeer(ClearPeer(DropSession(s, sess.sid), sess.sender), sess.receiver), sess.sender), sess.receiver)
  }

  function SidePeer(sess: Session, side: Side): PeerId {
    if side.SenderSide? then sess.sender else sess.receiver
  }

  function OtherSide(side: Side): Side { if side.SenderSide? then ReceiverSide else SenderSide }

  function EndSession(s: State, sess: Session, leaving: Side): State {
    Close(ClearPeer(ClearPeer(DropSession(s, sess.sid), sess.sender), sess.receiver), SidePeer(sess, OtherSide(leaving)))
  }

  // ----- restoring a receiver -----

  function ExpireReceiverAfterPrePairAttempts(s: State, sess: Session, existing: bool): State {
    var dropped := if existing then DropCode(s, sess.code) else s;
    Close(Close(ClearPeer(ClearPeer(dropped, sess.sender), sess.receiver), sess.sender), sess.receiver)
  }

  function SendRestoredRegistration(s: State, sess: Session): State {
    if At(s, sess.receiver).open then s
    else
      var dropped := if OwnsCode(s, sess.receiver, sess.code) then DropCode(s, sess.code) else s;
      Close(ClearPeer(dropped, sess.receiver), sess.receiver)
  }

  /** The session is gone, its sender forgotten, its receiver a receiver again. */
  function Unpair(s: State, sess: Session): State {
    var cleared := ClearPeer(DropSession(s, sess.sid), sess.sender);
    SetPeer(cleared, sess.receiver,
            At(cleared, sess.receiver).(sid := None, role := Receiver, code := Some(sess.code)))
  }

  function RestoreWaitingReceiver(s: State, sess: Session): State {
    if sess.code in s.codes then
      var existing := s.codes[sess.code];
      if existing.receiver == sess.receiver then
        var merged := existing.(remaining := Min(existing.remaining, sess.remaining));
        var s1 := Unpair(s, sess).(codes := s.codes[sess.code := merged]);
        if !CanRestorePrePairCode(merged.remaining) then ExpireReceiverAfterPrePairAttempts(s1, sess, true)
        else SendRestoredRegistration(Close(s1, sess.sender), sess)
      else
        CloseSessionPeers(DropSession(s, sess.sid), sess)
    else
      var s1 := Unpair(s, sess);
      if !CanRestorePrePairCode(sess.remaining) then ExpireReceiverAfterPrePairAttempts(s1, sess, false)
      else
        var s2 := s1.(codes := s1.codes[sess.code := Waiting(sess.receiver, sess.codeExpiresAt, sess.remaining, sess.reg)]);
        SendRestoredRegistration(Close(s2, sess.sender), sess)
  }

  predicate SenderCanRestoreReceiver(sess: Session, p: PeerId) { sess.sender == p && BeforePairAcceptance(sess) }

  // ----- message handlers -----

  /** One bad message more. */
  function OneWorse(peer: Peer): Peer { peer.(badMessages := peer.badMessages + 1) }

  function BadMessage(s: State, p: PeerId): State {
    if At(s, p).sid.Some? && At(s, p).sid.value in s.sessions
       && SenderCanRestoreReceiver(s.sessions[At(s, p).sid.value], p) then
      RestoreWaitingReceiver(s, s.sessions[At(s, p).sid.value])
    else
      var counted := SetPeer(s, p, OneWorse(At(s, p)));
      if At(counted, p).badMessages >= SIGNALING_MAX_BAD_MESSAGES then Close(counted, p) else counted
  }

  function HandleRegister(s: State, p: PeerId, code: Code, acceptable: bool, env: Env): State {
    var peer := At(s, p);
    if !env.attemptRateOk || peer.sid.Some? || peer.role.Sender? || !acceptable then s
    else if OwnsCode(s, p, code) then
      if !WaitingReceiverAvailable(s.codes[code].expiresAt, env.now, peer.open) then ExpireWaiting(s, code, p)
      else SetPeer(s, p, peer.(role := Receiver, code := Some(code)))
    else if code in s.codes then s
    else
      var replacing := peer.code.Some? && peer.code.value != code && OwnsCode(s, p, peer.code.value);
      if !CanRegisterWaitingCode(|s.codes|, replacing) then s
      else
        var s1 := if replacing then DropCode(s, peer.code.value) else s;
        var expiresAt := env.now + CODE_TTL_MS;
        SetPeer(s1, p, peer.(role := Receiver, code := Some(code)))
          .(codes := s1.codes[code := Waiting(p, expiresAt, RECEIVER_MAX_PREPAIR_ATTEMPTS, env.freshReg)],
            registrations := s1.registrations[env.freshReg := Registration(code, expiresAt, 0)])
  }

  function Served(s: State, reg: RegId): Registration {
    if reg in s.registrations then s.registrations[reg].(served := s.registrations[reg].served + 1)
    else Registration(0, 0, 0)
  }

  function OpenSession(s: State, p: PeerId, code: Code, waiting: Waiting, env: Env): (r: (State, Session)) {
    var s1 := DropCode(s, code);
    var s2 := if At(s1, p).code.Some? && OwnsCode(s1, p, At(s1, p).code.value) then DropCode(s1, At(s1, p).code.value) else s1;
    var s3 := SetPeer(s2, p, At(s2, p).(role := Sender, sid := Some(env.freshSid), code := Some(code)));
    var s4 := SetPeer(s3, waiting.receiver, At(s3, waiting.receiver).(sid := Some(env.freshSid)));
    var sess := Session(env.freshSid, code, waiting.expiresAt, p, waiting.receiver,
                        InitialSessionExpiresAt(env.now), INITIAL_PHASE, waiting.remaining - 1, waiting.reg, env.now, true);
    (s4.(sessions := s4.sessions[env.freshSid := sess],
         registrations := s4.registrations[waiting.reg := Served(s4, waiting.reg)],
         relayed := s4.relayed[env.freshSid := []]), sess)
  }

  /** Both peers are told that the other joined; a peer that cannot be told undoes the session. */
  function AnnounceSession(s: State, sess: Session): State {
    if !At(s, sess.receiver).open then
      Close(ClearPeer(ClearPeer(DropSession(s, sess.sid), sess.sender), sess.receiver), sess.receiver)
    else if !At(s, sess.sender).open then RestoreWaitingReceiver(s, sess)
    else s
  }

  function HandleConnect(s: State, p: PeerId, code: Code, acceptable: bool, env: Env): State {
    var peer := At(s, p);
    if !env.attemptRateOk || peer.sid.Some? || peer.role.Receiver? || !acceptable then s
    else if code !in s.codes then s
    else
      var waiting := s.codes[code];
      if !WaitingReceiverAvailable(waiting.expiresAt, env.now, At(s, waiting.receiver).open) then
        ExpireWaiting(s, code, waiting.receiver)
      else if !CanRestorePrePairCode(waiting.remaining) then ExpireWaiting(s, code, waiting.receiver)
      else if waiting.receiver == p then BadMessage(s, p)
      else if !CanCreateSession(|s.sessions|) then s
      else
        var (s1, sess) := OpenSession(s, p, code, waiting, env);
        AnnounceSession(s1, sess)
  }

  function RejectRelayMessage(s: State, sess: Session, p: PeerId): State {
    if SenderCanRestoreReceiver(sess, p) then RestoreWaitingReceiver(s, sess) else BadMessage(s, p)
  }

  function RelayDeliveryFailed(s: State, sess: Session, target: Side, restoreOnSenderFailure: bool): State {
    if restoreOnSenderFailure && target.SenderSide? && BeforePairAcceptance(sess) then RestoreWaitingReceiver(s, sess)
    else EndSession(s, sess, target)
  }

  /** The message reached the other peer. */
  function Delivered(s: State, sess: Session, from: Side, kind: Kind): State {
    var before := if sess.sid in s.relayed then s.relayed[sess.sid] else [];
    s.(relayed := s.relayed[sess.sid := before + [Relayed(from, kind)]])
  }

  /** applyRelayPhase, then the new deadline. */
  function Advance(s: State, sess: Session, from: Side, kind: Kind, now: int): State {
    var next := sess.(phase := Apply(sess.phase, from, kind),
                      expiresAt := NextSessionExpiresAt(sess.expiresAt, now, kind),
                      timely := sess.timely && now <= sess.expiresAt);
    s.(sessions := s.sessions[sess.sid := next])
  }

  function SideOf(sess: Session, p: PeerId): Side { if sess.sender == p then SenderSide else ReceiverSide }

  function RelayAccept(s: State, sess: Session, from: Side, env: Env): State {
    var target := SidePeer(sess, OtherSide(from));
    if !env.turnForSender then CloseSessionPeers(s, sess)
    else if !At(s, sess.sender).open || !At(s, target).open then RelayDeliveryFailed(s, sess, OtherSide(from), true)
    else
      var s1 := Delivered(s, sess, from, PairAccept);
      if !env.turnForReceiver then CloseSessionPeers(s1, sess)
      else if !At(s1, sess.receiver).open then CloseSessionPeers(s1, sess)
      else Advance(s1, sess, from, PairAccept, env.now)
  }

  function HandleRelay(s: State, p: PeerId, sid: Sid, kind: Kind, manifestOk: bool, env: Env): State {
    if sid !in s.sessions then s
    else
      var sess := s.sessions[sid];
      if sess.sender != p && sess.receiver != p then s
      else
        var from := SideOf(sess, p);
        if kind.PairRequest? && !manifestOk then RejectRelayMessage(s, sess, p)
        else if !AllowedForRole(from, kind) then RejectRelayMessage(s, sess, p)
        else if !AllowedForPhase(sess.phase, from, kind) then RejectRelayMessage(s, sess, p)
        else if !At(s, SidePeer(sess, OtherSide(from))).open then
          RelayDeliveryFailed(s, sess, OtherSide(from), !kind.PairReject?)
        else if kind.PairAccept? then RelayAccept(s, sess, from, env)
        else
          var s1 := Advance(Delivered(s, sess, from, kind), sess, from, kind, env.now);
          if kind.PairReject? then CloseSessionPeers(s1, sess) else s1
  }

  function CleanupPeer(s: State, p: PeerId): State {
    LeaveSession(if At(s, p).code.Some? && OwnsCode(s, p, At(s, p).code.value) then DropCode(s, At(s, p).code.value) else s, p)
  }

  function LeaveSession(s: State, p: PeerId): State {
    if At(s, p).sid.None? || At(s, p).sid.value !in s.sessions then s
    else
      var sess := s.sessions[At(s, p).sid.value];
      if SenderCanRestoreReceiver(sess, p) then RestoreWaitingReceiver(s, sess)
      else if sess.sender != p && sess.receiver != p then s
      else EndSession(s, sess, SideOf(sess, p))
  }

  /** retryReceiver: `None` where the server's function returns false. */
  function RetryReceiver(s: State, p: PeerId, now: int): Option<State> {
    var peer := At(s, p);
    if peer.sid.None? then
      if peer.code.Some? && OwnsCode(s, p, peer.code.value) then
        if !WaitingReceiverAvailable(s.codes[peer.code.value].expiresAt, now, peer.open)
        then Some(ExpireWaiting(s, peer.code.value, p))
        else Some(s)
      else None
    else if peer.sid.value in s.sessions
            && s.sessions[peer.sid.value].receiver == p
            && BeforePairAcceptance(s.sessions[peer.sid.value]) then
      Some(RestoreWaitingReceiver(s, s.sessions[peer.sid.value]))
    else None
  }

  function Released(peer: Peer): Peer { peer.(released := true) }

  function HandleBye(s: State, p: PeerId, prepairRetry: bool, now: int): State {
    var retried := if prepairRetry then RetryReceiver(s, p, now) else None;
    if retried.Some? then retried.value else Close(CleanupPeer(s, p), p)
  }

  function HandleMessage(s: State, p: PeerId, m: Message, env: Env): State {
    if !AcceptsClientMessages(s, p) then s
    else if !env.messageRateOk then Close(s, p)
    else
      match m
      case Register(code, acceptable) => HandleRegister(s, p, code, acceptable, env)
      case Connect(code, acceptable) => HandleConnect(s, p, code, acceptable, env)
      case Relay(sid, kind, manifestOk) => HandleRelay(s, p, sid, kind, manifestOk, env)
      case Bye(prepairRetry) => HandleBye(s, p, prepairRetry, env.now)
      case Malformed => BadMessage(s, p)
  }

  function SweepOneCode(s: State, code: Code, now: int): State {
    if code in s.codes && s.codes[code].expiresAt <= now then ExpireWaiting(s, code, s.codes[code].receiver) else s
  }

  function SweepOneSession(s: State, sid: Sid, now: int): State {
    if sid in s.sessions && s.sessions[sid].expiresAt <= now then
      var sess := s.sessions[sid];
      if BeforePairAcceptance(sess) && sess.codeExpiresAt > now && At(s, sess.receiver).open
      then RestoreWaitingReceiver(s, sess)
      else CloseSessionPeers(DropSession(s, sid), sess)
    else s
  }

  function Step(s: State, e: Event): State {
    match e
    case Arrive(p, overLimit) =>
      if p in s.peers then s
      else if overLimit then Close(SetPeer(s, p, FRESH_PEER), p)
      else SetPeer(s, p, FRESH_PEER)
    case IdleTimeout(p) =>
      if At(s, p).role.Unset? && At(s, p).sid.None? && At(s, p).code.None? then Close(s, p) else s
    case Deliver(p, m, env) => HandleMessage(s, p, m, env)
    case SocketCloses(p) => SetPeer(s, p, At(s, p).(open := false))
    case Disconnect(p) =>
      var s1 := CleanupPeer(s, p);
      SetPeer(s1, p, Released(At(s1, p)))
    case SweepCode(code, now) => SweepOneCode(s, code, now)
    case SweepSession(sid, now) => SweepOneSession(s, sid, now)
  }

  /** Session and registration ids are random and never repeat. */
  predicate FreshIds(s: State, e: Event) {
    e.Deliver? ==> e.env.freshSid !in s.relayed && e.env.freshReg !in s.registrations
  }

  function Run(s: State, events: seq<Event>): State
    decreases |events|
  {
    if events == [] then s else Step(Run(s, events[..|events| - 1]), events[|events| - 1])
  }

  ghost predicate FreshRun(s: State, events: seq<Event>) {
    forall i :: 0 <= i < |events| ==> FreshIds(Run(s, events[..i]), events[i])
  }
}
