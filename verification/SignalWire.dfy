/**
 Applying authenticated WebRTC signals to a peer connection: the queue of early candidates.

 Every incoming message has a handler of its own, and handlers interleave at their awaits. A
 step is what one handler does from one await to the next; the peer connection sets its
 remote description at a moment of its own (`DescriptionTakesEffect`).
*/
module SignalWire {
  import opened Prelude

  /** A candidate is its replay key. */
  datatype Signal = Offer | Answer | Candidate(key: nat)

  /** `forUs`: a well-formed signal of this session. `authentic`: it opens, its kind and its tag are right. */
  datatype Message = Message(signal: Signal, forUs: bool, authentic: bool)

  const MAX_QUEUED: nat := 256

  // ----- the replay guard -----

  datatype Guard = Guard(answerOffers: bool, seenOffer: bool, seenAnswer: bool, seenCandidates: set<nat>)

  predicate Accepts(g: Guard, signal: Signal) {
    match signal
    case Offer => g.answerOffers && !g.seenOffer
    case Answer => !g.answerOffers && !g.seenAnswer
    case Candidate(key) => key !in g.seenCandidates
  }

  function Seen(g: Guard, signal: Signal): Guard {
    match signal
    case Offer => g.(seenOffer := true)
    case Answer => g.(seenAnswer := true)
    case Candidate(key) => g.(seenCandidates := g.seenCandidates + {key})
  }

  class ReplayGuard {
    const answerOffers: bool
    var seenOffer: bool
    var seenAnswer: bool
    var seenCandidates: set<nat>

    constructor (answerOffers: bool)
      ensures View() == Guard(answerOffers, false, false, {})
    {
      this.answerOffers := answerOffers;
      seenOffer, seenAnswer, seenCandidates := false, false, {};
    }

    function View(): Guard
      reads this
    {
      Guard(answerOffers, seenOffer, seenAnswer, seenCandidates)
    }

    /** False stands for the exception. */
    method Accept(signal: Signal) returns (ok: bool)
      modifies this
      ensures ok <==> Accepts(old(View()), signal)
      ensures View() == if ok then Seen(old(View()), signal) else old(View())
    {
      ok := true;
      match signal
      case Offer =>
        if !answerOffers || seenOffer {
          return false;
        }
        seenOffer := true;
      case Answer =>
        if answerOffers || seenAnswer {
          return false;
        }
        seenAnswer := true;
      case Candidate(key) =>
        if key in seenCandidates {
          return false;
        }
        seenCandidates := seenCandidates + {key};
    }
  }

  // ----- handlers and what they share -----

  datatype Handler =
    | Opening(message: Message)
    | Describing(kind: Signal)
    | Described(kind: Signal)
    | Answering(left: nat)
    | Adding
    | Draining
    | Finished

  /**
   `applied` and `accepted` record candidates: handed to the peer connection, and let through by
   the guard. `describer` is the handler that set the remote description.
  */
  datatype Wire = Wire(
    guard: Guard,
    queue: seq<nat>,
    disposed: bool,
    failed: bool,
    remote: bool,
    handlers: map<nat, Handler>,
    applied: seq<nat>,
    accepted: seq<nat>,
    descriptions: nat,
    answersSent: nat,
    describer: Option<nat>)

  function Fresh(answerOffers: bool): Wire {
    Wire(Guard(answerOffers, false, false, {}), [], false, false, false, map[], [], [], 0, 0, None)
  }

  datatype Event =
    | Arrive(handler: nat, message: Message)
    | Resume(handler: nat, ok: bool)
    | DescriptionTakesEffect(handler: nat)
    | SocketFails
    | Dispose

  function Goto(w: Wire, h: nat, state: Handler): Wire { w.(handlers := w.handlers[h := state]) }

  function Disposed(w: Wire): Wire { w.(disposed := true, queue := []) }

  function Fail(w: Wire): Wire { if w.failed || w.disposed then w else Disposed(w.(failed := true)) }

  function FailAt(w: Wire, h: nat): Wire { Goto(Fail(w), h, Finished) }

  /** The end of a handler: the drain loop up to its next await, or its exit. */
  function Drain(w: Wire, h: nat): Wire {
    if !w.disposed && w.remote && w.queue != []
    then Goto(w.(queue := w.queue[1..], applied := w.applied + [w.queue[0]]), h, Draining)
    else Goto(w, h, Finished)
  }

  /** A signal that opened and was authenticated. */
  function Handle(w: Wire, h: nat, signal: Signal): Wire {
    if !Accepts(w.guard, signal) then FailAt(w, h)
    else
      var seen := w.(guard := Seen(w.guard, signal));
      match signal
      case Candidate(key) =>
        var counted := seen.(accepted := w.accepted + [key]);
        if w.remote then Goto(counted.(applied := w.applied + [key]), h, Adding)
        else if |w.queue| >= MAX_QUEUED then FailAt(counted, h)
        else Goto(counted.(queue := w.queue + [key]), h, Finished)
      case _ => Goto(seen.(descriptions := w.descriptions + 1), h, Describing(signal))
  }

  function Resumed(w: Wire, h: nat, ok: bool): Wire
    requires h in w.handlers
  {
    match w.handlers[h]
    case Finished => w
    case Describing(_) => if ok then w else FailAt(w, h)
    case Opening(m) =>
      if !ok then FailAt(w, h)
      else if w.disposed then Goto(w, h, Finished)
      else if !m.authentic then FailAt(w, h)
      else Handle(w, h, m.signal)
    case Described(kind) =>
      if w.disposed then Goto(w, h, Finished)
      else if kind.Offer? && w.guard.answerOffers then Goto(w, h, Answering(2))
      else Drain(w, h)
    case Answering(left) =>
      if !ok then FailAt(w, h)
      else if w.disposed then Goto(w, h, Finished)
      else if left > 0 then Goto(w, h, Answering(left - 1))
      else Drain(w.(answersSent := w.answersSent + 1), h)
    case Adding =>
      if !ok then FailAt(w, h) else if w.disposed then Goto(w, h, Finished) else Drain(w, h)
    case Draining => if !ok then FailAt(w, h) else Drain(w, h)
  }

  function Step(w: Wire, e: Event): Wire {
    match e
    case Arrive(h, m) => if w.disposed || !m.forUs || h in w.handlers then w else Goto(w, h, Opening(m))
    case Resume(h, ok) => if h in w.handlers then Resumed(w, h, ok) else w
    case DescriptionTakesEffect(h) =>
      if h in w.handlers && w.handlers[h].Describing?
      then Goto(w.(remote := true, describer := Some(h)), h, Described(w.handlers[h].kind))
      else w
    case SocketFails => Fail(w)
    case Dispose => Disposed(w)
  }

  function Run(answerOffers: bool, events: seq<Event>): Wire {
    if events == [] then Fresh(answerOffers)
    else Step(Run(answerOffers, events[..|events| - 1]), events[|events| - 1])
  }

  // ----- the shared state in place -----

  class Wiring {
    const guard: ReplayGuard
    var queuedCandidates: seq<nat>
    var disposed: bool
    var failed: bool
    var remoteDescription: bool
    var handlers: map<nat, Handler>
    var applied: seq<nat>
    var answersSent: nat
    ghost var accepted: seq<nat>
    ghost var descriptions: nat
    ghost var describer: Option<nat>

    constructor (answerOffers: bool)
      ensures View() == Fresh(answerOffers) && fresh(guard)
    {
      guard := new ReplayGuard(answerOffers);
      queuedCandidates, disposed, failed, remoteDescription, handlers, applied := [], false, false, false, map[], [];
      answersSent, accepted, descriptions, describer := 0, [], 0, None;
    }

    ghost function View(): Wire
      reads this, guard
    {
      Wire(guard.View(), queuedCandidates, disposed, failed, remoteDescription, handlers, applied, accepted,
           descriptions, answersSent, describer)
    }

    method DisposeAll()
      modifies this`disposed, this`queuedCandidates
      ensures View() == Disposed(old(View()))
    {
      disposed := true;
      queuedCandidates := [];
    }

    method FailAll()
      modifies this`disposed, this`queuedCandidates, this`failed
      ensures View() == Fail(old(View()))
    {
      if failed || disposed {
        return;
      }
      failed := true;
      DisposeAll();
    }

    method FailHandler(h: nat)
      modifies this`disposed, this`queuedCandidates, this`failed, this`handlers
      ensures View() == FailAt(old(View()), h)
    {
      FailAll();
      handlers := handlers[h := Finished];
    }

    /** One turn of the drain loop: shift a candidate and hand it over, or leave. */
    method DrainTurn(h: nat)
      modifies this`queuedCandidates, this`applied, this`handlers
      ensures View() == Drain(old(View()), h)
    {
      if !disposed && remoteDescription && |queuedCandidates| > 0 {
        applied := applied + [queuedCandidates[0]];
        queuedCandidates := queuedCandidates[1..];
        handlers := handlers[h := Draining];
      } else {
        handlers := handlers[h := Finished];
      }
    }

    method HandleSignal(h: nat, signal: Signal)
      modifies this, guard
      ensures View() == Handle(old(View()), h, signal)
    {
      var ok := guard.Accept(signal);
      if !ok {
        FailHandler(h);
        return;
      }
      match signal
      case Candidate(key) =>
        accepted := accepted + [key];
        if remoteDescription {
          applied := applied + [key];
          handlers := handlers[h := Adding];
        } else if |queuedCandidates| >= MAX_QUEUED {
          FailHandler(h);
        } else {
          queuedCandidates := queuedCandidates + [key];
          handlers := handlers[h := Finished];
        }
      case _ =>
        descriptions := descriptions + 1;
        handlers := handlers[h := Describing(signal)];
    }

    /**
     A handler goes on from its await: candidates stay applied or queued once, in the right order
     of things, and an accepted description stays set or on its way, and answered or to be answered.
    */
    method SafeResume(h: nat, ok: bool)
      requires h in handlers && Inv(View()) && Ahead(View())
      modifies this, guard
      ensures Inv(View()) && Ahead(View()) && View() == Resumed(old(View()), h, ok)
    {
      ResumedKeeps(View(), h, ok);
      ResumedAhead(View(), h, ok);
      ResumeHandler(h, ok);
    }

    method ResumeHandler(h: nat, ok: bool)
      requires h in handlers
      modifies this, guard
      ensures View() == Resumed(old(View()), h, ok)
    {
      match handlers[h]
      case Finished =>
      case Describing(_) =>
        if !ok {
          FailHandler(h);
        }
      case Opening(m) =>
        if ok && disposed {
          handlers := handlers[h := Finished];
        } else if !ok || !m.authentic {
          FailHandler(h);
        } else {
          HandleSignal(h, m.signal);
        }
      case Described(kind) =>
        if disposed {
          handlers := handlers[h := Finished];
        } else if kind.Offer? && guard.answerOffers {
          handlers := handlers[h := Answering(2)];
        } else {
          DrainTurn(h);
        }
      case Answering(left) =>
        if !ok {
          FailHandler(h);
        } else if disposed {
          handlers := handlers[h := Finished];
        } else if left > 0 {
          handlers := handlers[h := Answering(left - 1)];
        } else {
          answersSent := answersSent + 1;
          DrainTurn(h);
        }
      case Adding =>
        if !ok {
          FailHandler(h);
        } else if disposed {
          handlers := handlers[h := Finished];
        } else {
          DrainTurn(h);
        }
      case Draining =>
        if !ok {
          FailHandler(h);
        } else {
          DrainTurn(h);
        }
    }
  }

  // ----- the invariant -----

  /** Handlers that come after the remote description, and will still reach the drain loop. */
  predicate WillDrain(state: Handler) { state.Described? || state.Answering? || state.Draining? }

  ghost predicate Distinct(s: seq<nat>) { forall i, j :: 0 <= i < j < |s| ==> s[i] != s[j] }

  /** Everything the guard let through is applied or queued, once. */
  ghost predicate Conserved(w: Wire) {
    && Distinct(w.accepted)
    && (forall key :: key in w.guard.seenCandidates <==> key in w.accepted)
    && (if w.disposed then multiset(w.applied) <= multiset(w.accepted)
        else multiset(w.applied) + multiset(w.queue) == multiset(w.accepted))
    && |w.queue| <= MAX_QUEUED
    && (w.disposed ==> w.queue == [])
    && (w.failed ==> w.disposed)
  }

  /** One description at most, and candidates only after it. */
  ghost predicate DescribedOnce(w: Wire) {
    && w.descriptions == (if w.guard.seenOffer then 1 else 0) + (if w.guard.seenAnswer then 1 else 0)
    && (if w.guard.answerOffers then !w.guard.seenAnswer else !w.guard.seenOffer)
    && (w.remote ==> w.descriptions == 1)
    && (w.applied != [] ==> w.remote)
    && (forall h :: h in w.handlers && w.handlers[h].Describing? ==> w.descriptions == 1 && !w.remote)
    && (forall h, g :: h in w.handlers && g in w.handlers && w.handlers[h].Describing? && w.handlers[g].Describing? ==> h == g)
    && (forall h :: h in w.handlers && (WillDrain(w.handlers[h]) || w.handlers[h].Adding?) ==> w.remote)
  }

  /** An answer goes out at most once, from the handler that set the description. */
  ghost predicate AnsweredOnce(w: Wire) {
    && w.answersSent <= w.descriptions
    && (!w.remote ==> w.answersSent == 0)
    && (forall h :: h in w.handlers && (w.handlers[h].Described? || w.handlers[h].Answering?) ==>
          w.describer == Some(h) && w.answersSent == 0)
  }

  /** While candidates wait although the description is set, its handler is still to drain them. */
  ghost predicate DrainAhead(w: Wire) {
    w.remote && w.queue != [] ==>
      w.describer.Some? && w.describer.value in w.handlers && WillDrain(w.handlers[w.describer.value])
  }

  ghost predicate Inv(w: Wire) { Conserved(w) && DescribedOnce(w) && AnsweredOnce(w) && DrainAhead(w) }

  lemma FailKeeps(w: Wire)
    requires Inv(w)
    ensures Inv(Disposed(w)) && Inv(Fail(w)) && Fail(w).disposed
  {
    assert multiset(w.applied) <= multiset(w.applied) + multiset(w.queue);
  }

  lemma FinishKeeps(w: Wire, h: nat)
    requires Inv(w) && (w.remote && w.queue != [] ==> w.describer != Some(h))
    ensures Inv(Goto(w, h, Finished))
  {
  }

  lemma FailAtKeeps(w: Wire, h: nat)
    requires Inv(w)
    ensures Inv(FailAt(w, h))
  {
    FailKeeps(w);
    FinishKeeps(Fail(w), h);
  }

  lemma DrainKeeps(w: Wire, h: nat)
    requires Inv(w) && w.remote
    ensures Inv(Drain(w, h))
  {
    if !w.disposed && w.queue != [] {
      assert w.queue == [w.queue[0]] + w.queue[1..];
    } else {
      FinishKeeps(w, h);
    }
  }

  /** The handler's answer is sent; what remains for it is the drain loop. */
  lemma AnswerKeeps(w: Wire, h: nat)
    requires Inv(w) && h in w.handlers && w.handlers[h].Answering?
    ensures Inv(Goto(w, h, Draining).(answersSent := w.answersSent + 1))
  {
  }

  lemma DrainAfterAnswer(w: Wire, h: nat)
    requires Inv(w) && h in w.handlers && w.handlers[h].Answering?
    ensures Inv(Drain(w.(answersSent := w.answersSent + 1), h))
  {
    AnswerKeeps(w, h);
    var sent := Goto(w, h, Draining).(answersSent := w.answersSent + 1);
    DrainKeeps(sent, h);
    assert Drain(sent, h) == Drain(w.(answersSent := w.answersSent + 1), h) by {
      assert w.handlers[h := Draining][h := Draining] == w.handlers[h := Draining];
      assert w.handlers[h := Draining][h := Finished] == w.handlers[h := Finished];
    }
  }

  lemma DescribeKeeps(w: Wire, h: nat, signal: Signal)
    requires Inv(w) && h in w.handlers && w.handlers[h].Opening? && !signal.Candidate? && Accepts(w.guard, signal)
    ensures Inv(Goto(w.(guard := Seen(w.guard, signal), descriptions := w.descriptions + 1), h, Describing(signal)))
  {
  }

  lemma ApplyKeeps(w: Wire, h: nat, key: nat)
    requires Inv(w) && !w.disposed && w.remote && h in w.handlers && w.handlers[h].Opening? && Accepts(w.guard, Candidate(key))
    ensures Inv(Goto(w.(guard := Seen(w.guard, Candidate(key)), accepted := w.accepted + [key], applied := w.applied + [key]), h, Adding))
  {
    assert Distinct(w.accepted + [key]);
  }

  lemma QueueKeeps(w: Wire, h: nat, key: nat)
    requires Inv(w) && !w.disposed && !w.remote && |w.queue| < MAX_QUEUED
    requires h in w.handlers && w.handlers[h].Opening? && Accepts(w.guard, Candidate(key))
    ensures Inv(Goto(w.(guard := Seen(w.guard, Candidate(key)), accepted := w.accepted + [key], queue := w.queue + [key]), h, Finished))
  {
    assert Distinct(w.accepted + [key]);
  }

  lemma CandidateKeeps(w: Wire, h: nat, key: nat)
    requires Inv(w) && !w.disposed && h in w.handlers && w.handlers[h].Opening? && Accepts(w.guard, Candidate(key))
    ensures Inv(Handle(w, h, Candidate(key)))
  {
    if w.remote {
      ApplyKeeps(w, h, key);
    } else if |w.queue| >= MAX_QUEUED {
      assert Distinct(w.accepted + [key]);
      OverflowKeeps(w, w.(guard := Seen(w.guard, Candidate(key)), accepted := w.accepted + [key]), h);
    } else {
      QueueKeeps(w, h, key);
    }
  }

  lemma OverflowKeeps(w: Wire, counted: Wire, h: nat)
    requires Inv(w) && !w.disposed && !w.remote && Distinct(counted.accepted)
    requires exists key: nat :: counted == w.(guard := Seen(w.guard, Candidate(key)), accepted := w.accepted + [key])
    ensures Inv(FailAt(counted, h))
  {
    assert multiset(w.applied) <= multiset(w.applied) + multiset(w.queue) <= multiset(counted.accepted);
    var t := Disposed(counted.(failed := true));
    assert Inv(t);
    FinishKeeps(t, h);
  }

  lemma OpeningKeeps(w: Wire, h: nat, ok: bool)
    requires Inv(w) && h in w.handlers && w.handlers[h].Opening?
    ensures Inv(Resumed(w, h, ok))
  {
    var m := w.handlers[h].message;
    FailAtKeeps(w, h);
    FinishKeeps(w, h);
    if ok && !w.disposed && m.authentic && Accepts(w.guard, m.signal) {
      if m.signal.Candidate? {
        CandidateKeeps(w, h, m.signal.key);
      } else {
        DescribeKeeps(w, h, m.signal);
      }
    }
  }

  lemma AnsweringKeeps(w: Wire, h: nat, ok: bool)
    requires Inv(w) && h in w.handlers && w.handlers[h].Answering?
    ensures Inv(Resumed(w, h, ok))
  {
    FailAtKeeps(w, h);
    if ok && w.disposed {
      FinishKeeps(w, h);
    } else if ok && w.handlers[h].left == 0 {
      DrainAfterAnswer(w, h);
    }
  }

  lemma LaterKeeps(w: Wire, h: nat, ok: bool)
    requires Inv(w) && h in w.handlers && (w.handlers[h].Described? || w.handlers[h].Adding? || w.handlers[h].Draining?)
    ensures Inv(Resumed(w, h, ok))
  {
    FailAtKeeps(w, h);
    DrainKeeps(w, h);
    if w.disposed {
      FinishKeeps(w, h);
    }
  }

  lemma ResumedKeeps(w: Wire, h: nat, ok: bool)
    requires Inv(w) && h in w.handlers
    ensures Inv(Resumed(w, h, ok))
  {
    match w.handlers[h]
    case Finished =>
    case Describing(_) => FailAtKeeps(w, h);
    case Opening(_) => OpeningKeeps(w, h, ok);
    case Answering(_) => AnsweringKeeps(w, h, ok);
    case _ => LaterKeeps(w, h, ok);
  }

  lemma EffectKeeps(w: Wire, h: nat)
    requires Inv(w) && h in w.handlers && w.handlers[h].Describing?
    ensures Inv(Goto(w.(remote := true, describer := Some(h)), h, Described(w.handlers[h].kind)))
  {
  }

  lemma StepKeeps(w: Wire, e: Event)
    requires Inv(w)
    ensures Inv(Step(w, e))
  {
    match e
    case Arrive(h, m) =>
    case Resume(h, ok) =>
      if h in w.handlers {
        ResumedKeeps(w, h, ok);
      }
    case DescriptionTakesEffect(h) =>
      if h in w.handlers && w.handlers[h].Describing? {
        EffectKeeps(w, h);
      }
    case SocketFails => FailKeeps(w);
    case Dispose => FailKeeps(w);
  }

  lemma {:induction false} EveryRunKeeps(answerOffers: bool, events: seq<Event>)
    ensures Inv(Run(answerOffers, events))
  {
    if events != [] {
      EveryRunKeeps(answerOffers, events[..|events| - 1]);
      StepKeeps(Run(answerOffers, events[..|events| - 1]), events[|events| - 1]);
    }
  }

  // ----- the theorems -----

  lemma {:induction false} DistinctCounts(s: seq<nat>, x: nat)
    requires Distinct(s)
    ensures multiset(s)[x] == if x in s then 1 else 0
  {
    if s != [] {
      var init := s[..|s| - 1];
      assert s == init + [s[|s| - 1]];
      DistinctCounts(init, x);
    }
  }

  /**
   Over every interleaving of handlers: a candidate the guard let through is handed to the peer
   connection at most once, never one it did not let through, and none before the remote
   description is set; while the wiring is in use it is applied or queued, exactly once.
  */
  lemma EachCandidateOnce(answerOffers: bool, events: seq<Event>, key: nat)
    ensures var w := Run(answerOffers, events);
            && multiset(w.applied)[key] <= 1
            && (key in w.applied ==> key in w.accepted && w.remote)
            && (!w.disposed && key in w.accepted ==> multiset(w.applied)[key] + multiset(w.queue)[key] == 1)
  {
    EveryRunKeeps(answerOffers, events);
    var w := Run(answerOffers, events);
    DistinctCounts(w.accepted, key);
    assert multiset(w.applied)[key] <= multiset(w.accepted)[key];
    assert key in w.applied ==> multiset(w.applied)[key] > 0;
  }

  /**
   None is left behind: once the handler that set the remote description is through its drain
   loop, every accepted candidate was applied, whatever other handlers are still doing, unless
   the wiring failed or was disposed of.
  */
  lemma NoneLeftBehind(answerOffers: bool, events: seq<Event>)
    ensures var w := Run(answerOffers, events);
            w.remote && !w.disposed
            && (w.describer.Some? && w.describer.value in w.handlers ==> w.handlers[w.describer.value].Finished?) ==>
              w.queue == [] && multiset(w.applied) == multiset(w.accepted)
  {
    EveryRunKeeps(answerOffers, events);
  }

  /** At most one description is ever applied and at most one answer sent, and only the expected kind. */
  lemma OneDescription(answerOffers: bool, events: seq<Event>)
    ensures var w := Run(answerOffers, events);
            && w.descriptions <= 1 && w.answersSent <= w.descriptions
            && (if answerOffers then !w.guard.seenAnswer else !w.guard.seenOffer)
  {
    EveryRunKeeps(answerOffers, events);
    SameRole(answerOffers, events);
  }

  // ----- an accepted description is applied -----

  /** An accepted description is set, or its handler still waits for that, or the wiring is over. */
  ghost predicate DescriptionAhead(w: Wire) {
    w.descriptions > 0 && !w.remote && !w.disposed ==> exists h :: h in w.handlers && w.handlers[h].Describing?
  }

  /** Whoever answers offers has answered the one that was set, or its handler is still about to. */
  ghost predicate AnswerAhead(w: Wire) {
    && (w.guard.answerOffers && w.remote && !w.disposed && w.answersSent == 0 ==>
          && w.describer.Some? && w.describer.value in w.handlers
          && (w.handlers[w.describer.value] == Described(Offer) || w.handlers[w.describer.value].Answering?))
    && (!w.guard.answerOffers ==>
          w.answersSent == 0 && forall h :: h in w.handlers ==> !w.handlers[h].Answering?)
    && (forall h :: h in w.handlers && (w.handlers[h].Describing? || w.handlers[h].Described?) ==>
          w.handlers[h].kind == if w.guard.answerOffers then Offer else Answer)
  }

  ghost predicate Ahead(w: Wire) { DescriptionAhead(w) && AnswerAhead(w) }

  ghost predicate DescribingIn(w: Wire) { exists h :: h in w.handlers && w.handlers[h].Describing? }

  /** Only a description taking effect, or the end, takes a handler out of `Describing`. */
  lemma DescriptionStaysAhead(w: Wire, h: nat, ok: bool)
    requires Inv(w) && DescriptionAhead(w) && h in w.handlers
    ensures DescriptionAhead(Resumed(w, h, ok))
  {
    var t := Resumed(w, h, ok);
    if t.descriptions > w.descriptions {
      assert t.handlers[h].Describing?;
    } else if DescribingIn(w) && !t.disposed {
      var g :| g in w.handlers && w.handlers[g].Describing?;
      assert g in t.handlers && t.handlers[g] == w.handlers[g];
    }
  }

  lemma OpeningAnswerAhead(w: Wire, h: nat, ok: bool)
    requires Inv(w) && AnswerAhead(w) && h in w.handlers && w.handlers[h].Opening?
    ensures AnswerAhead(Resumed(w, h, ok))
  {
    FinishAnswerAhead(w, h);
    var m := w.handlers[h].message;
    if ok && !w.disposed && m.authentic && Accepts(w.guard, m.signal) {
      TakenAnswerAhead(w, h, m.signal);
    }
  }

  lemma FinishAnswerAhead(w: Wire, h: nat)
    requires Inv(w) && AnswerAhead(w) && h in w.handlers && w.handlers[h].Opening?
    ensures AnswerAhead(FailAt(w, h)) && AnswerAhead(Goto(w, h, Finished))
  {
  }

  lemma TakenAnswerAhead(w: Wire, h: nat, signal: Signal)
    requires Inv(w) && AnswerAhead(w) && h in w.handlers && w.handlers[h].Opening? && Accepts(w.guard, signal)
    ensures AnswerAhead(Handle(w, h, signal))
  {
  }

  lemma DescribedAnswerAhead(w: Wire, h: nat, ok: bool)
    requires Inv(w) && AnswerAhead(w) && h in w.handlers && (w.handlers[h].Described? || w.handlers[h].Answering?)
    ensures AnswerAhead(Resumed(w, h, ok))
  {
  }

  lemma LaterAnswerAhead(w: Wire, h: nat, ok: bool)
    requires Inv(w) && AnswerAhead(w) && h in w.handlers
    requires !w.handlers[h].Opening? && !w.handlers[h].Described? && !w.handlers[h].Answering?
    ensures AnswerAhead(Resumed(w, h, ok))
  {
  }

  lemma ResumedAhead(w: Wire, h: nat, ok: bool)
    requires Inv(w) && Ahead(w) && h in w.handlers
    ensures Ahead(Resumed(w, h, ok))
  {
    DescriptionStaysAhead(w, h, ok);
    match w.handlers[h]
    case Opening(_) => OpeningAnswerAhead(w, h, ok);
    case Described(_) => DescribedAnswerAhead(w, h, ok);
    case Answering(_) => DescribedAnswerAhead(w, h, ok);
    case _ => LaterAnswerAhead(w, h, ok);
  }

  lemma StepAhead(w: Wire, e: Event)
    requires Inv(w) && Ahead(w)
    ensures Ahead(Step(w, e))
  {
    match e
    case Arrive(h, m) =>
      if DescribingIn(w) {
        var g :| g in w.handlers && w.handlers[g].Describing?;
        assert g in Step(w, e).handlers && Step(w, e).handlers[g] == w.handlers[g];
      }
    case Resume(h, ok) =>
      if h in w.handlers {
        ResumedAhead(w, h, ok);
      }
    case DescriptionTakesEffect(_) =>
    case SocketFails =>
    case Dispose =>
  }

  lemma {:induction false} EveryRunAhead(answerOffers: bool, events: seq<Event>)
    ensures Inv(Run(answerOffers, events)) && Ahead(Run(answerOffers, events))
  {
    EveryRunKeeps(answerOffers, events);
    if events != [] {
      EveryRunAhead(answerOffers, events[..|events| - 1]);
      StepAhead(Run(answerOffers, events[..|events| - 1]), events[|events| - 1]);
    }
  }

  /**
   Nothing accepted is swallowed. While the wiring is in use, an accepted description is set or
   on its way; and once every handler is through, it is set, every accepted candidate was
   applied, and an offer was answered, exactly once and by the side that answers.
  */
  lemma NothingSwallowed(answerOffers: bool, events: seq<Event>)
    ensures var w := Run(answerOffers, events);
            w.descriptions == 1 && !w.disposed ==>
              && (w.remote || exists h :: h in w.handlers && w.handlers[h].Describing?)
              && ((forall h :: h in w.handlers ==> w.handlers[h].Finished?) ==>
                    && w.remote && w.queue == [] && multiset(w.applied) == multiset(w.accepted)
                    && w.answersSent == if answerOffers then 1 else 0)
  {
    EveryRunAhead(answerOffers, events);
    SameRole(answerOffers, events);
  }

  // ----- what becomes of a message -----

  /** By what was accepted before: a new candidate that is applied or fits the queue, or the first description of the right kind. */
  predicate Welcome(w: Wire, answerOffers: bool, signal: Signal) {
    match signal
    case Candidate(key) => key !in w.accepted && (w.remote || |w.queue| < MAX_QUEUED)
    case Offer => answerOffers && w.descriptions == 0
    case Answer => !answerOffers && w.descriptions == 0
  }

  /** A welcome signal is taken: a candidate goes to the connection or to the end of the queue, a description is being set. */
  ghost predicate Taken(w: Wire, t: Wire, h: nat, signal: Signal) {
    && !t.failed && !t.disposed
    && (match signal
        case Candidate(key) =>
          && t.accepted == w.accepted + [key] && t.descriptions == w.descriptions
          && (if w.remote then t.applied == w.applied + [key] && t.queue == w.queue
              else t.applied == w.applied && t.queue == w.queue + [key])
        case _ =>
          && t.handlers == w.handlers[h := Describing(signal)] && t.descriptions == 1
          && t.accepted == w.accepted && t.applied == w.applied && t.queue == w.queue)
  }

  /**
   A message that arrives for this session gets a handler of its own; when it has opened, it is
   taken if it is authentic and welcome, and otherwise the connection fails.
  */
  lemma MessageOutcome(answerOffers: bool, events: seq<Event>, h: nat, m: Message)
    ensures var w := Run(answerOffers, events);
            var arrived := Run(answerOffers, events + [Arrive(h, m)]);
            !w.disposed && m.forUs && h !in w.handlers ==> arrived == w.(handlers := w.handlers[h := Opening(m)])
    ensures var w := Run(answerOffers, events);
            var t := Run(answerOffers, events + [Resume(h, true)]);
            !w.disposed && h in w.handlers && w.handlers[h] == Opening(m) ==>
              if m.authentic && Welcome(w, answerOffers, m.signal) then Taken(w, t, h, m.signal) else t.failed && t.disposed
  {
    EveryRunKeeps(answerOffers, events);
    SameRole(answerOffers, events);
    assert (events + [Arrive(h, m)])[..|events|] == events;
    assert (events + [Resume(h, true)])[..|events|] == events;
    var w := Run(answerOffers, events);
    if !w.disposed && h in w.handlers && w.handlers[h] == Opening(m) && m.authentic {
      AuthenticOutcome(w, h, m.signal);
    }
  }

  lemma AuthenticOutcome(w: Wire, h: nat, signal: Signal)
    requires Inv(w) && !w.disposed && h in w.handlers
    ensures var t := Handle(w, h, signal);
            if Welcome(w, w.guard.answerOffers, signal) then Taken(w, t, h, signal) else t.failed && t.disposed
  {
  }

  /** A failed connection stays over: nothing is applied and no answer sent any more. */
  lemma OverForGood(w: Wire, e: Event)
    requires Inv(w) && w.disposed
    ensures var t := Step(w, e);
            t.disposed && t.applied == w.applied && t.answersSent == w.answersSent && t.descriptions == w.descriptions
  {
  }

  /** A failing socket and a failing step of a handler end the connection. */
  lemma ErrorsEnd(w: Wire, h: nat)
    requires Inv(w)
    ensures Step(w, SocketFails).disposed && (!w.disposed ==> Step(w, SocketFails).failed)
    ensures h in w.handlers && !w.handlers[h].Finished? && !w.handlers[h].Described? ==>
              Step(w, Resume(h, false)).disposed && Step(w, Resume(h, false)).handlers[h].Finished?
  {
  }

  function Rank(state: Handler): nat {
    match state
    case Opening(_) => 8
    case Describing(_) => 7
    case Described(_) => 6
    case Answering(left) => 3 + left
    case Adding => 2
    case Draining => 1
    case Finished => 0
  }

  /** Every handler comes to its end: it gets on with each of its steps, or it drains the queue. */
  lemma HandlersEnd(w: Wire, h: nat, ok: bool)
    requires h in w.handlers && !w.handlers[h].Finished? && !(ok && w.handlers[h].Describing?)
    ensures var t := Step(w, Resume(h, ok));
            Rank(t.handlers[h]) < Rank(w.handlers[h]) || (t.handlers[h] == w.handlers[h] && |t.queue| < |w.queue|)
  {
  }

  /** The queue is first in, first out: it grows at its end, and only its head moves on to the connection. */
  lemma QueueIsFifo(w: Wire, e: Event)
    ensures var t := Step(w, e);
            || t.queue == w.queue
            || (w.queue <= t.queue && |t.queue| == |w.queue| + 1)
            || (w.queue != [] && t.queue == w.queue[1..] && t.applied == w.applied + [w.queue[0]])
            || (t.disposed && t.queue == [])
  {
  }

  predicate SameOffers(w: Wire, t: Wire) { t.guard.answerOffers == w.guard.answerOffers }

  lemma HandleKeepsRole(w: Wire, h: nat, signal: Signal)
    ensures SameOffers(w, Handle(w, h, signal))
  {
  }

  lemma ResumedKeepsRole(w: Wire, h: nat, ok: bool)
    requires h in w.handlers
    ensures SameOffers(w, Resumed(w, h, ok))
  {
    if w.handlers[h].Opening? {
      HandleKeepsRole(w, h, w.handlers[h].message.signal);
    }
  }

  lemma StepKeepsRole(w: Wire, e: Event)
    ensures SameOffers(w, Step(w, e))
  {
    if e.Resume? && e.handler in w.handlers {
      ResumedKeepsRole(w, e.handler, e.ok);
    }
  }

  lemma {:induction false} SameRole(answerOffers: bool, events: seq<Event>)
    ensures Run(answerOffers, events).guard.answerOffers == answerOffers
  {
    if events != [] {
      SameRole(answerOffers, events[..|events| - 1]);
      StepKeepsRole(Run(answerOffers, events[..|events| - 1]), events[|events| - 1]);
    }
  }
}
