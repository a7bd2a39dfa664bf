/**
 The sender of a transfer as a machine with one step per await point.

 `Receive` is the control-message handler, `Advance` one step of the main loop. They touch
 each other only through `readyStates`, `pending` (the acknowledgement waiter) and `failed`.
 The handler that resolves a wait moves the loop past it, because only microtasks separate
 the two; "send, then arm the wait" is one step for the same reason.
*/
module SenderMachine {
  import opened Prelude
  import opened Frames

  /** A file of the send plan: a name token, its bytes, and (derived) its hashes. */
  datatype SendFile = SendFile(name: int, content: Bytes)

  datatype Entry = Entry(id: nat, name: int, size: nat)

  datatype Control =
    | Manifest(files: seq<Entry>)
    | FileBegin(id: nat, name: int, size: nat)
    | Ready(id: nat, offset: nat, prefix: Option<Digest>)
    | Restart(id: nat)
    | FileEnd(id: nat, sha256: Digest)
    | FileOk(id: nat)
    | AllDone
    | AllDoneOk
    | Abort
    | Garbage

  datatype Chunk = Chunk(id: nat, seqNo: nat, payload: Bytes)

  datatype Ack = ReadyAck(id: nat) | FileOkAck(id: nat) | AllDoneAck

  datatype ReadyState = ReadyState(offset: nat, prefix: Option<Digest>)

  datatype Pc =
    | AtManifest
    | AtBegin(f: nat)
    | AwaitReady(f: nat)
    | Verifying(f: nat)
    | AwaitRestart(f: nat)
    | Streaming(f: nat, k: nat)
    | Sealed(f: nat, k: nat)
    | AwaitFileOk(f: nat)
    | AwaitAllDoneOk
    | Returned
    | Threw

  datatype Sender = Sender(
    pc: Pc,
    readyStates: map<nat, ReadyState>,
    pending: set<Ack>,
    failed: bool,
    completed: bool,
    sealLog: seq<(nat, nat)>,
    restartLog: seq<nat>)

  const INITIAL_SENDER := Sender(AtManifest, map[], {}, false, false, [], [])

  datatype Output = Output(control: seq<Control>, bulk: seq<Chunk>)

  const NOTHING := Output([], [])

  /** Best-effort word to the peer that the transfer is over. */
  const ABORTING := Output([Abort], [])

  /** The entries of the manifest: ids are positions. */
  function EntriesOf(plan: seq<SendFile>): seq<Entry> {
    seq(|plan|, i requires 0 <= i < |plan| => Entry(i, plan[i].name, |plan[i].content|))
  }

  predicate Over(s: Sender) { s.pc.Returned? || s.pc.Threw? }

  // ----- the control-message handler -----

  /** A failure is recorded and every armed wait is rejected. */
  function Fail(s: Sender): Sender { s.(failed := true, pending := {}) }

  /** ControlAckWaiter.mark: resolves the wait if it is armed. */
  function Mark(s: Sender, ack: Ack, next: Pc): Sender {
    if ack in s.pending then s.(pending := s.pending - {ack}, pc := next) else Fail(s)
  }

  /** Where the main loop stands once the wait for `ready` of file `id` is resolved. */
  function AfterReady(s: Sender, id: nat): Pc {
    if s.pc == AwaitReady(id) || s.pc == AwaitRestart(id) then Verifying(id) else s.pc
  }

  function AfterFileOk(s: Sender, id: nat): Pc {
    if s.pc == AwaitFileOk(id) then AtBegin(id + 1) else s.pc
  }

  function Receive(s: Sender, m: Control): Sender {
    if s.completed || Over(s) then s
    else
      match m
      case Ready(id, offset, prefix) =>
        if offset > MAX_FILE_BYTES || (offset > 0 && prefix.None?) then Fail(s)
        else
          Mark(s.(readyStates := s.readyStates[id := ReadyState(offset, if offset == 0 then None else prefix)]),
               ReadyAck(id), AfterReady(s, id))
      case FileOk(id) => Mark(s, FileOkAck(id), AfterFileOk(s, id))
      case AllDoneOk =>
        if AllDoneAck in s.pending then
          s.(pending := s.pending - {AllDoneAck}, pc := if s.pc == AwaitAllDoneOk then Returned else s.pc, completed := true)
        else Fail(s)
      case _ => Fail(s)
  }

  // ----- the main loop -----

  function Throw(s: Sender): Sender { s.(pc := Threw, pending := {}) }

  function ReadyOf(s: Sender, f: nat): ReadyState {
    if f in s.readyStates then s.readyStates[f] else ReadyState(0, None)
  }

  function Size(plan: seq<SendFile>, f: nat): nat { if f < |plan| then |plan[f].content| else 0 }

  function Content(plan: seq<SendFile>, f: nat): Bytes { if f < |plan| then plan[f].content else [] }

  function Sha(h: Hash, plan: seq<SendFile>, f: nat): Digest { h(Content(plan, f)) }

  /** verifiedReadyState: trust the offset, ask for a restart, or give up. */
  function VerifyReady(s: Sender, plan: seq<SendFile>, h: Hash, f: nat): (Sender, Output) {
    var ready := ReadyOf(s, f);
    var taken := s.(readyStates := s.readyStates - {f});
    if !ValidOffset(Size(plan, f), ready.offset) then (Throw(taken), ABORTING)
    else if ready.offset == 0 || ready.prefix == Some(h(Content(plan, f)[..ready.offset])) then
      (taken.(pc := Streaming(f, StartSeq(Size(plan, f), ready.offset))), NOTHING)
    else
      (taken.(pc := AwaitRestart(f), pending := taken.pending + {ReadyAck(f)}, restartLog := taken.restartLog + [f]),
       Output([Restart(f)], []))
  }

  /** The main loop can take a step: it is not waiting, or its wait was rejected. */
  predicate CanAdvance(s: Sender) {
    !Over(s) && (s.failed || !(s.pc.AwaitReady? || s.pc.AwaitRestart? || s.pc.AwaitFileOk? || s.pc.AwaitAllDoneOk?))
  }

  function Advance(s: Sender, plan: seq<SendFile>, h: Hash): (Sender, Output) {
    if !CanAdvance(s) then (s, NOTHING)
    else if s.failed then (Throw(s), ABORTING)
    else
      match s.pc
      case AtManifest => (s.(pc := AtBegin(0)), Output([Manifest(EntriesOf(plan))], []))
      case AtBegin(f) =>
        if f < |plan| then
          (s.(pc := AwaitReady(f), pending := s.pending + {ReadyAck(f)}),
           Output([FileBegin(f, plan[f].name, |plan[f].content|)], []))
        else (s.(pc := AwaitAllDoneOk, pending := s.pending + {AllDoneAck}), Output([AllDone], []))
      case Verifying(f) => VerifyReady(s, plan, h, f)
      case Streaming(f, k) =>
        if k < NumChunks(Size(plan, f)) then (s.(pc := Sealed(f, k), sealLog := s.sealLog + [(f, k)]), NOTHING)
        else (s.(pc := AwaitFileOk(f), pending := s.pending + {FileOkAck(f)}), Output([FileEnd(f, Sha(h, plan, f))], []))
      case Sealed(f, k) => (s.(pc := Streaming(f, k + 1)), Output([], [Chunk(f, k, ChunkOf(Content(plan, f), k))]))
      case _ => (s, NOTHING)
  }

  /** What can happen to a sender: any message, a step, a channel failure, a timeout or a changed source file. */
  datatype SenderEvent =
    | Incoming(m: Control)
    | Proceed
    | ChannelFails
    | TimesOut
    | SourceChanged

  function SenderStep(s: Sender, plan: seq<SendFile>, h: Hash, e: SenderEvent): Sender {
    match e
    case Incoming(m) => Receive(s, m)
    case Proceed => Advance(s, plan, h).0
    case ChannelFails => if s.completed || Over(s) then s else Fail(s)
    case TimesOut => if s.pending != {} && !Over(s) then Throw(s) else s
    case SourceChanged => if Over(s) then s else Throw(s)
  }

  function SenderRun(plan: seq<SendFile>, h: Hash, events: seq<SenderEvent>): Sender {
    if events == [] then INITIAL_SENDER
    else SenderStep(SenderRun(plan, h, events[..|events| - 1]), plan, h, events[|events| - 1])
  }

  // ----- words that fail the sender -----

  /** The word answers a wait that is armed, and a `ready` is sound. */
  predicate Expected(s: Sender, m: Control) {
    match m
    case Ready(id, offset, prefix) =>
      ReadyAck(id) in s.pending && offset <= 1024 * 1024 * 1024 && (offset > 0 ==> prefix.Some?)
    case FileOk(id) => FileOkAck(id) in s.pending
    case AllDoneOk => AllDoneAck in s.pending
    case _ => false
  }

  /**
   A word of the receiver fails the sender exactly if it is none that is waited for: an abort, a
   forged or damaged one, one of the sender's own, or an acknowledgement out of turn.
  */
  lemma WordOutcome(s: Sender, m: Control)
    requires !s.failed && !s.completed && !Over(s)
    ensures Receive(s, m).failed <==> !Expected(s, m)
    ensures !Expected(s, m) ==> Receive(s, m).pending == {} && Receive(s, m).pc == s.pc
    ensures Expected(s, m) ==> |Receive(s, m).pending| == |s.pending| - 1
  {
    if m.Ready? {
      ReadyWord(s, m.id, m.offset, m.prefix);
    } else if m.FileOk? || m.AllDoneOk? {
      AckWord(s, m);
    } else {
      OtherWord(s, m);
    }
  }

  lemma ReadyWord(s: Sender, id: nat, offset: nat, prefix: Option<Digest>)
    requires !s.failed && !s.completed && !Over(s)
    ensures var m := Ready(id, offset, prefix);
            && (Receive(s, m).failed <==> !Expected(s, m))
            && (if Expected(s, m) then |Receive(s, m).pending| == |s.pending| - 1
                else Receive(s, m).pending == {} && Receive(s, m).pc == s.pc)
  {
  }

  lemma AckWord(s: Sender, m: Control)
    requires !s.failed && !s.completed && !Over(s) && (m.FileOk? || m.AllDoneOk?)
    ensures Receive(s, m).failed <==> !Expected(s, m)
    ensures if Expected(s, m) then |Receive(s, m).pending| == |s.pending| - 1
            else Receive(s, m).pending == {} && Receive(s, m).pc == s.pc
  {
  }

  lemma OtherWord(s: Sender, m: Control)
    requires !s.completed && !Over(s) && !m.Ready? && !m.FileOk? && !m.AllDoneOk?
    ensures !Expected(s, m) && Receive(s, m) == Fail(s)
  {
  }

  /** A sender that leaves its loop with an error tells the receiver, and sends nothing else. */
  lemma LeavingIsTold(s: Sender, plan: seq<SendFile>, h: Hash)
    requires !s.pc.Threw?
    ensures var (t, out) := Advance(s, plan, h);
            (t.pc.Threw? <==> out.control == [Abort]) && (t.pc.Threw? ==> out.bulk == [])
  {
  }

  /** The sender has failed, or has left its loop with an error. */
  predicate Doomed(s: Sender) { !s.completed && (s.failed || s.pc.Threw?) && !s.pc.Returned? }

  lemma DoomedStays(s: Sender, plan: seq<SendFile>, h: Hash, e: SenderEvent)
    requires Doomed(s) && (s.failed ==> s.pending == {})
    ensures var t := SenderStep(s, plan, h, e);
            Doomed(t) && (t.failed ==> t.pending == {}) && t.sealLog == s.sealLog
            && Advance(s, plan, h).1.bulk == [] && (Advance(s, plan, h).1.control == [] || Advance(s, plan, h).1 == ABORTING)
  {
  }

  lemma FailedWaitsForNothing(s: Sender, plan: seq<SendFile>, h: Hash, e: SenderEvent)
    requires s.failed ==> s.pending == {}
    ensures SenderStep(s, plan, h, e).failed ==> SenderStep(s, plan, h, e).pending == {}
  {
  }

  lemma {:induction false} EveryFailureWaitsForNothing(plan: seq<SendFile>, h: Hash, events: seq<SenderEvent>)
    ensures var s := SenderRun(plan, h, events); s.failed ==> s.pending == {}
  {
    if events != [] {
      EveryFailureWaitsForNothing(plan, h, events[..|events| - 1]);
      FailedWaitsForNothing(SenderRun(plan, h, events[..|events| - 1]), plan, h, events[|events| - 1]);
    }
  }

  /**
   Once a sender that has not completed meets an abort, any unexpected word, a failing channel,
   a timeout or a changed file, it never returns normally, and seals nothing more.
  */
  lemma {:induction false} FailureIsFinal(plan: seq<SendFile>, h: Hash, events: seq<SenderEvent>, later: seq<SenderEvent>)
    requires Doomed(SenderRun(plan, h, events))
    ensures var t := SenderRun(plan, h, events + later);
            Doomed(t) && t.sealLog == SenderRun(plan, h, events).sealLog
    decreases |later|
  {
    if later == [] {
      assert events + later == events;
    } else {
      var before := later[..|later| - 1];
      FailureIsFinal(plan, h, events, before);
      EveryFailureWaitsForNothing(plan, h, events + before);
      assert (events + later)[..|events + later| - 1] == events + before;
      DoomedStays(SenderRun(plan, h, events + before), plan, h, later[|later| - 1]);
    }
  }

  /** What dooms a sender that is still under way. */
  lemma TroubleDooms(s: Sender, plan: seq<SendFile>, h: Hash, e: SenderEvent)
    requires !s.completed && !Over(s)
    requires match e
             case Incoming(m) => !Expected(s, m)
             case Proceed => false
             case ChannelFails => true
             case TimesOut => s.pending != {}
             case SourceChanged => true
    ensures Doomed(SenderStep(s, plan, h, e))
  {
  }

  // ----- no chunk is sealed twice -----

  /** The next chunk that may still be sealed: file and number. */
  function Frontier(s: Sender): (nat, nat) {
    match s.pc
    case AtManifest => (0, 0)
    case AtBegin(f) => (f, 0)
    case AwaitReady(f) => (f, 0)
    case Verifying(f) => (f, 0)
    case AwaitRestart(f) => (f, 0)
    case Streaming(f, k) => (f, k)
    case Sealed(f, k) => (f, k + 1)
    case AwaitFileOk(f) => (f + 1, 0)
    case _ => (0, 0)
  }

  predicate Before(a: (nat, nat), b: (nat, nat)) { a.0 < b.0 || (a.0 == b.0 && a.1 < b.1) }

  /** The file the main loop works on. */
  function CurrentFile(s: Sender): nat { Frontier(s).0 }

  ghost predicate SealedOnce(s: Sender) {
    && (forall i, j :: 0 <= i < j < |s.sealLog| ==> Before(s.sealLog[i], s.sealLog[j]))
    && (!Over(s) && !s.pc.AwaitAllDoneOk? ==> forall i :: 0 <= i < |s.sealLog| ==> Before(s.sealLog[i], Frontier(s)))
  }

  /** Only chunks of the plan are sealed. */
  ghost predicate SealedFromPlan(s: Sender, plan: seq<SendFile>) {
    && (forall i :: 0 <= i < |s.sealLog| ==>
          s.sealLog[i].0 < |plan| && s.sealLog[i].1 < NumChunks(Size(plan, s.sealLog[i].0)))
    && (!Over(s) && !s.pc.AwaitAllDoneOk? && !s.pc.AtManifest? && !s.pc.AtBegin? && !s.pc.AwaitFileOk? ==> CurrentFile(s) < |plan|)
    && (s.pc.AwaitFileOk? ==> s.pc.f < |plan|)
  }

  lemma StepSealsOnce(s: Sender, plan: seq<SendFile>, h: Hash, e: SenderEvent)
    requires SealedOnce(s)
    ensures SealedOnce(SenderStep(s, plan, h, e))
  {
  }

  lemma StepSealsFromPlan(s: Sender, plan: seq<SendFile>, h: Hash, e: SenderEvent)
    requires SealedFromPlan(s, plan)
    ensures SealedFromPlan(SenderStep(s, plan, h, e), plan)
  {
  }

  /**
   Whatever messages, failures and timeouts a sender meets, the chunks it seals are chunks of
   its plan, strictly increasing by file and number: no (file, chunk) pair is sealed twice.
  */
  lemma {:induction false} NoChunkSealedTwice(plan: seq<SendFile>, h: Hash, events: seq<SenderEvent>)
    ensures SealedOnce(SenderRun(plan, h, events)) && SealedFromPlan(SenderRun(plan, h, events), plan)
    ensures var log := SenderRun(plan, h, events).sealLog;
            forall i, j :: 0 <= i < j < |log| ==> log[i] != log[j]
  {
    if events != [] {
      var s := SenderRun(plan, h, events[..|events| - 1]);
      NoChunkSealedTwice(plan, h, events[..|events| - 1]);
      StepSealsOnce(s, plan, h, events[|events| - 1]);
      StepSealsFromPlan(s, plan, h, events[|events| - 1]);
    }
  }
}
