/**
 The relay policy of a paired session: who may send which message in which
 phase, and how a delivered message advances the phase.

 `Phase` is the record of flags and counters the server keeps. `Ordered` is an
 independent reading of the same rules over the list of delivered messages:
 every message must be preceded by the messages the protocol puts before it.
 `Matches` connects the two.
*/
module RelayPolicy {

  const SIGNALING_MAX_ICE_CANDIDATES_PER_PEER: nat := 512

  datatype Side = SenderSide | ReceiverSide

  datatype Kind =
    | Pake
    | Confirm
    | PairRequest
    | PairAccept
    | PairReject
    | Offer
    | Answer
    | Candidate

  datatype Relayed = Relayed(from: Side, kind: Kind)

  datatype Phase = Phase(
    senderPakeSeen: bool,
    receiverPakeSeen: bool,
    senderConfirmed: bool,
    receiverConfirmed: bool,
    pairRequested: bool,
    pairDecided: bool,
    offerSeen: bool,
    answerSeen: bool,
    senderCandidateCount: nat,
    receiverCandidateCount: nat)

  const INITIAL_PHASE := Phase(false, false, false, false, false, false, false, false, 0, 0)

  function CandidateCount(ph: Phase, from: Side): nat {
    if from.SenderSide? then ph.senderCandidateCount else ph.receiverCandidateCount
  }

  predicate AllowedForRole(from: Side, kind: Kind) {
    match kind
    case PairRequest => from.SenderSide?
    case PairAccept => from.ReceiverSide?
    case PairReject => from.ReceiverSide?
    case Offer => from.SenderSide?
    case Answer => from.ReceiverSide?
    case Candidate => true
    case Pake => true
    case Confirm => true
  }

  predicate AllowedForPhase(ph: Phase, from: Side, kind: Kind) {
    match kind
    case Pake =>
      !ph.pairRequested && !ph.pairDecided &&
      (if from.SenderSide? then !ph.senderPakeSeen else !ph.receiverPakeSeen)
    case Confirm =>
      ph.senderPakeSeen && ph.receiverPakeSeen && !ph.pairRequested && !ph.pairDecided &&
      (if from.SenderSide? then !ph.senderConfirmed else !ph.receiverConfirmed)
    case PairRequest =>
      ph.senderConfirmed && ph.receiverConfirmed && !ph.pairRequested && !ph.pairDecided
    case PairAccept => ph.pairRequested && !ph.pairDecided
    case PairReject => ph.pairRequested && !ph.pairDecided
    case Offer => ph.pairDecided && !ph.offerSeen
    case Answer => ph.pairDecided && ph.offerSeen && !ph.answerSeen
    case Candidate =>
      ph.pairDecided && ph.offerSeen && CandidateCount(ph, from) < SIGNALING_MAX_ICE_CANDIDATES_PER_PEER
  }

  /** The phase after a delivered message. A reject sets no flag: the session ends with it. */
  function Apply(ph: Phase, from: Side, kind: Kind): Phase {
    match kind
    case Pake => if from.SenderSide? then ph.(senderPakeSeen := true) else ph.(receiverPakeSeen := true)
    case Confirm => if from.SenderSide? then ph.(senderConfirmed := true) else ph.(receiverConfirmed := true)
    case PairRequest => ph.(pairRequested := true)
    case PairAccept => ph.(pairDecided := true)
    case PairReject => ph
    case Offer => ph.(offerSeen := true)
    case Answer => ph.(answerSeen := true)
    case Candidate =>
      if CandidateCount(ph, from) + 1 > SIGNALING_MAX_ICE_CANDIDATES_PER_PEER then ph
      else if from.SenderSide? then ph.(senderCandidateCount := ph.senderCandidateCount + 1)
      else ph.(receiverCandidateCount := ph.receiverCandidateCount + 1)
  }

  /** How often a message of one kind from one side occurs in a log. */
  function Count(log: seq<Relayed>, from: Side, kind: Kind): nat {
    if log == [] then 0
    else Count(log[..|log| - 1], from, kind) + (if log[|log| - 1] == Relayed(from, kind) then 1 else 0)
  }

  ghost predicate Has(log: seq<Relayed>, from: Side, kind: Kind) {
    Count(log, from, kind) > 0
  }

  /** `m` may follow `before`: everything the protocol puts first is there, nothing ended the session. */
  ghost predicate MayFollow(before: seq<Relayed>, m: Relayed) {
    && (m.kind.PairRequest? || m.kind.Offer? ==> m.from.SenderSide?)
    && (m.kind.PairAccept? || m.kind.PairReject? || m.kind.Answer? ==> m.from.ReceiverSide?)
    && !Has(before, ReceiverSide, PairReject)
    && (m.kind.Candidate? ==> Count(before, m.from, m.kind) < SIGNALING_MAX_ICE_CANDIDATES_PER_PEER)
    && (!m.kind.Candidate? ==> Count(before, m.from, m.kind) == 0)
    && (m.kind.Pake? || m.kind.Confirm? ==> !Has(before, SenderSide, PairRequest))
    && (m.kind.Confirm? ==> Has(before, SenderSide, Pake) && Has(before, ReceiverSide, Pake))
    && (m.kind.PairRequest? ==> Has(before, SenderSide, Confirm) && Has(before, ReceiverSide, Confirm))
    && (m.kind.PairAccept? || m.kind.PairReject? ==>
          Has(before, SenderSide, PairRequest) && !Has(before, ReceiverSide, PairAccept))
    && (m.kind.Offer? ==> Has(before, ReceiverSide, PairAccept))
    && (m.kind.Answer? || m.kind.Candidate? ==> Has(before, SenderSide, Offer))
  }

  ghost predicate Ordered(log: seq<Relayed>) {
    forall i :: 0 <= i < |log| ==> MayFollow(log[..i], log[i])
  }

  /** The server's flags and counters say exactly what the log of delivered messages says. */
  ghost predicate Matches(ph: Phase, log: seq<Relayed>) {
    && ph.senderPakeSeen == Has(log, SenderSide, Pake)
    && ph.receiverPakeSeen == Has(log, ReceiverSide, Pake)
    && ph.senderConfirmed == Has(log, SenderSide, Confirm)
    && ph.receiverConfirmed == Has(log, ReceiverSide, Confirm)
    && ph.pairRequested == Has(log, SenderSide, PairRequest)
    && ph.pairDecided == Has(log, ReceiverSide, PairAccept)
    && ph.offerSeen == Has(log, SenderSide, Offer)
    && ph.answerSeen == Has(log, ReceiverSide, Answer)
    && ph.senderCandidateCount == Count(log, SenderSide, Candidate)
    && ph.receiverCandidateCount == Count(log, ReceiverSide, Candidate)
    && !Has(log, ReceiverSide, PairReject)
    && (ph.pairDecided ==> ph.pairRequested)
    && (ph.offerSeen ==> ph.pairDecided)
  }

  lemma CountAppend(log: seq<Relayed>, m: Relayed)
    ensures forall from, kind :: Count(log + [m], from, kind)
                              == Count(log, from, kind) + (if m == Relayed(from, kind) then 1 else 0)
  {
    assert (log + [m])[..|log|] == log;
  }

  /** The policy lets a message through exactly when it may follow the messages already delivered. */
  lemma AllowedExactlyWhenMayFollow(ph: Phase, log: seq<Relayed>, from: Side, kind: Kind)
    requires Matches(ph, log)
    ensures AllowedForRole(from, kind) && AllowedForPhase(ph, from, kind) <==> MayFollow(log, Relayed(from, kind))
  {
    assert kind.PairAccept? && MayFollow(log, Relayed(from, kind)) ==> from.ReceiverSide?;
  }

  /** Applying a delivered message keeps flags and log in step (a reject ends the session instead). */
  lemma ApplyKeepsMatches(ph: Phase, log: seq<Relayed>, from: Side, kind: Kind)
    requires Matches(ph, log)
    requires AllowedForRole(from, kind) && AllowedForPhase(ph, from, kind)
    requires !kind.PairReject?
    ensures Matches(Apply(ph, from, kind), log + [Relayed(from, kind)])
  {
    CountAppend(log, Relayed(from, kind));
  }

  lemma AppendKeepsOrdered(log: seq<Relayed>, m: Relayed)
    requires Ordered(log) && MayFollow(log, m)
    ensures Ordered(log + [m])
  {
    var longer := log + [m];
    forall i | 0 <= i < |longer|
      ensures MayFollow(longer[..i], longer[i])
    {
      if i < |log| {
        assert longer[..i] == log[..i];
      } else {
        assert longer[..i] == log;
      }
    }
  }

  /** The number of messages of one kind, both sides together. */
  function KindCount(log: seq<Relayed>, kind: Kind): nat {
    Count(log, SenderSide, kind) + Count(log, ReceiverSide, kind)
  }

  lemma {:induction false} LengthIsSumOfCounts(log: seq<Relayed>)
    ensures |log| == KindCount(log, Pake) + KindCount(log, Confirm) + KindCount(log, PairRequest)
                   + KindCount(log, PairAccept) + KindCount(log, PairReject) + KindCount(log, Offer)
                   + KindCount(log, Answer) + KindCount(log, Candidate)
  {
    if log != [] {
      var front, m := log[..|log| - 1], log[|log| - 1];
      LengthIsSumOfCounts(front);
      forall kind: Kind
        ensures KindCount(log, kind) == KindCount(front, kind) + (if m.kind == kind then 1 else 0)
      {
        assert m == Relayed(m.from, m.kind);
        assert m.from.SenderSide? || m.from.ReceiverSide?;
      }
    }
  }

  lemma {:induction false} OrderedCounts(log: seq<Relayed>, from: Side, kind: Kind)
    requires Ordered(log)
    ensures Count(log, from, kind) <= if kind.Candidate? then SIGNALING_MAX_ICE_CANDIDATES_PER_PEER else 1
    ensures !AllowedForRole(from, kind) ==> Count(log, from, kind) == 0
  {
    if log != [] {
      var n := |log| - 1;
      var front := log[..n];
      assert forall i :: 0 <= i < n ==> log[..i] == front[..i] && log[i] == front[i];
      assert Ordered(front);
      OrderedCounts(front, from, kind);
      assert MayFollow(log[..n], log[n]);
    }
  }

  lemma {:induction false} OneDecision(log: seq<Relayed>)
    requires Ordered(log)
    ensures Count(log, ReceiverSide, PairAccept) + Count(log, ReceiverSide, PairReject) <= 1
  {
    if log != [] {
      var n := |log| - 1;
      var front := log[..n];
      assert forall i :: 0 <= i < n ==> log[..i] == front[..i] && log[i] == front[i];
      OneDecision(front);
      assert MayFollow(log[..n], log[n]);
    }
  }

  /**
   An ordered log holds each non-candidate kind at most once per side, at most 512
   candidates per side, not both an accept and a reject, and at most 1032 messages.
  */
  lemma OrderedLogBounds(log: seq<Relayed>)
    requires Ordered(log)
    ensures forall from, kind ::
              Count(log, from, kind) <= if kind.Candidate? then SIGNALING_MAX_ICE_CANDIDATES_PER_PEER else 1
    ensures Count(log, ReceiverSide, PairAccept) + Count(log, ReceiverSide, PairReject) <= 1
    ensures |log| <= 1032
  {
    forall from: Side, kind: Kind
      ensures Count(log, from, kind) <= if kind.Candidate? then SIGNALING_MAX_ICE_CANDIDATES_PER_PEER else 1
      ensures !AllowedForRole(from, kind) ==> Count(log, from, kind) == 0
    {
      OrderedCounts(log, from, kind);
    }
    OneDecision(log);
    LengthIsSumOfCounts(log);
  }
}
