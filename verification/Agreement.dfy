/**
 One-way agreement between a sender and a receiver joined by their channels, whatever fails.

 The channels carry what the two ends sent, in order, and may lose all of it at any moment.
 A message that was forged or damaged does not open: the receiver's step is then one with
 `ok` false, the sender's is the arrival of `Garbage`.
*/
module Agreement {
  import opened Prelude
  import opened Frames
  import opened SenderMachine
  import opened ReceiverMachine
  import opened AllOrNothing
  import opened Acknowledgements

  datatype Net = Net(s: Sender, r: Receiver, control: seq<Control>, bulk: seq<Chunk>, back: seq<Control>)

  const INITIAL_NET := Net(INITIAL_SENDER, INITIAL_RECEIVER, [], [], [])

  datatype NetEvent =
    | SenderProceeds
    | SenderTakes
    | SenderMeets(trouble: SenderEvent)
    | ReceiverTakesControl
    | ReceiverTakesChunk
    | ReceiverMeets(event: ReceiverEvent)
    | QueuesLost

  /** Trouble is anything but a step of the main loop or a message of the receiver. */
  predicate IsTrouble(e: SenderEvent) { !e.Proceed? && (e.Incoming? ==> e.m == Garbage) }

  /** What a receiver that moved from `r` to `t` has sent meanwhile. */
  function NewlySent(r: Receiver, t: Receiver): seq<Control> {
    if |r.sent| <= |t.sent| then t.sent[|r.sent|..] else []
  }

  function ReceiverMoves(n: Net, cfg: Config, h: Hash, e: ReceiverEvent): Net {
    var t := ReceiverStep(n.r, cfg, h, e);
    n.(r := t, back := n.back + NewlySent(n.r, t))
  }

  function NetStep(n: Net, plan: seq<SendFile>, cfg: Config, h: Hash, e: NetEvent): Net {
    match e
    case SenderProceeds =>
      var (s, out) := Advance(n.s, plan, h);
      n.(s := s, control := n.control + out.control, bulk := n.bulk + out.bulk)
    case SenderTakes => if n.back == [] then n else n.(s := Receive(n.s, n.back[0]), back := n.back[1..])
    case SenderMeets(trouble) =>
      if !IsTrouble(trouble) then n
      else
        var s := SenderStep(n.s, plan, h, trouble);
        n.(s := s, control := if s.pc.Threw? && !n.s.pc.Threw? then n.control + [Abort] else n.control)
    case ReceiverTakesControl =>
      if n.control == [] || !n.r.task.Idle? || Stopped(n.r) then n
      else n.(r := ReceiverStep(n.r, cfg, h, Take(OnControl(n.control[0]))), control := n.control[1..])
    case ReceiverTakesChunk =>
      if n.bulk == [] || !n.r.task.Idle? || Stopped(n.r) then n
      else n.(r := ReceiverStep(n.r, cfg, h, Take(OnBulk(n.bulk[0]))), bulk := n.bulk[1..])
    case ReceiverMeets(event) => if event.Take? then n else ReceiverMoves(n, cfg, h, event)
    case QueuesLost => n.(control := [], bulk := [], back := [])
  }

  function NetRun(plan: seq<SendFile>, cfg: Config, h: Hash, events: seq<NetEvent>): Net {
    if events == [] then INITIAL_NET
    else NetStep(NetRun(plan, cfg, h, events[..|events| - 1]), plan, cfg, h, events[|events| - 1])
  }

  // ----- what the receiver learns comes from the sender -----

  /** Digests and the manifest are announced by the sender of this plan. */
  predicate Genuine(m: Control, plan: seq<SendFile>, h: Hash) {
    && (m.FileEnd? ==> m.id < |plan| && m.sha256 == Sha(h, plan, m.id))
    && (m.Manifest? ==> m.files == EntriesOf(plan))
  }

  ghost predicate ExpectsOnlySha(r: Receiver, plan: seq<SendFile>, h: Hash) {
    forall id :: id in r.files && r.files[id].expectedSha.Some? ==>
      id < |plan| && r.files[id].expectedSha.value == Sha(h, plan, id)
  }

  ghost predicate Announced(r: Receiver, plan: seq<SendFile>, h: Hash) {
    && (r.manifest.Some? ==> r.manifest.value == EntriesOf(plan))
    && ExpectsOnlySha(r, plan, h)
    && (r.task.Opening? && r.task.message.OnControl? ==> Genuine(r.task.message.control, plan, h))
  }

  /** The manifest is stored once, as it came. */
  predicate ManifestKept(r: Receiver, t: Receiver) {
    || t.manifest == r.manifest
    || (r.task.Opening? && r.task.message.OnControl? && r.task.message.control.Manifest?
        && t.manifest == Some(r.task.message.control.files))
  }

  /** Final files only appear by being published. */
  ghost predicate FinalsOnlyPublished(r: Receiver, t: Receiver) {
    forall id :: id in t.finals ==>
      (id in r.finals && t.finals[id] == r.finals[id]) || (r.task == Publishing(id) && id in r.files && !r.files[id].done)
  }

  /** The step opens no message, touches neither the manifest nor a final file, and forgives no failure. */
  predicate Aside(r: Receiver, t: Receiver) {
    t.manifest == r.manifest && t.finals == r.finals && !t.task.Opening? && (r.failed ==> t.failed)
  }

  lemma EndsAside(r: Receiver, id: nat)
    ensures Aside(r, ResolveDone(r)) && Aside(r, Finalize(r, id)) && Aside(r, GiveUp(r, id))
  {
  }

  lemma OpenManifestMoves(r: Receiver, cfg: Config, entries: seq<Entry>)
    ensures var t := OpenManifest(r, cfg, entries);
            && t.finals == r.finals && !t.task.Opening? && (r.failed ==> t.failed)
            && (t.manifest == r.manifest || t.manifest == Some(entries))
  {
  }

  lemma OpenFileBeginAside(r: Receiver, id: nat, name: int, size: nat)
    ensures Aside(r, OpenFileBegin(r, id, name, size))
  {
  }

  lemma OpenFileEndAside(r: Receiver, id: nat, sha256: Digest)
    ensures Aside(r, OpenFileEnd(r, id, sha256)) && Aside(r, OpenRestart(r, id))
  {
    if id in r.files && r.files[id].expectedSha.None? {
      EndsAside(Put(r, id, r.files[id].(expectedSha := Some(sha256))), id);
    }
  }

  lemma OpenAllDoneAside(r: Receiver)
    ensures Aside(r, OpenAllDone(r))
  {
    EndsAside(r.(allDoneSeen := true), 0);
  }

  lemma OpenChunkAside(r: Receiver, c: Chunk)
    ensures Aside(r, OpenChunk(r, c))
  {
  }

  lemma WriteAside(r: Receiver, id: nat, payload: Bytes)
    ensures Aside(r, Write(r, id, payload))
  {
    if id in r.files {
      EndsAside(Put(r, id, r.files[id].(disk := r.files[id].disk + payload)), id);
    }
  }

  lemma ReserveAside(r: Receiver, cfg: Config, h: Hash, id: nat, size: nat, partial: Bytes)
    ensures Aside(r, Reserve(r, cfg, h, id, size, partial)) && Aside(r, RestartFile(r, id))
  {
  }

  lemma FillingAside(r: Receiver, cfg: Config, h: Hash, choice: Choice)
    requires r.task.Reserving? || r.task.Restarting? || r.task.Writing?
    ensures Aside(r, WorkOn(r, cfg, h, choice))
  {
    match r.task
    case Reserving(id, size) => ReserveAside(r, cfg, h, id, size, choice.partial);
    case Restarting(id) => ReserveAside(r, cfg, h, id, 0, []);
    case Writing(id, payload) => WriteAside(r, id, payload);
  }

  lemma TalkingAside(r: Receiver, cfg: Config, h: Hash, choice: Choice)
    requires r.task.Replying? || r.task.Resolving? || r.task.Throwing? || r.task.Idle?
    ensures Aside(r, WorkOn(r, cfg, h, choice))
  {
  }

  lemma ChecksAside(r: Receiver, h: Hash, id: nat)
    ensures Aside(r, CheckReceived(r, h, id)) && Aside(r, CheckPart(r, h, id))
  {
    EndsAside(r, id);
  }

  lemma CheckFinalAside(r: Receiver, h: Hash, id: nat, ok: bool)
    ensures Aside(r, CheckFinal(r, h, id, ok))
  {
    EndsAside(r, id);
    if id in r.files && id in r.finals {
      EndsAside(Put(r, id, r.files[id].(done := true))
                  .(sent := r.sent + [FileOk(id)], verified := r.verified[id := h(r.finals[id])]), id);
    }
  }

  /** What a step of the task may do to the manifest, to final files and to the verdict. */
  ghost predicate Moves(r: Receiver, t: Receiver) {
    ManifestKept(r, t) && FinalsOnlyPublished(r, t) && !t.task.Opening? && (r.failed ==> t.failed)
  }

  lemma AsideMoves(r: Receiver, t: Receiver)
    requires Aside(r, t)
    ensures Moves(r, t)
  {
  }

  lemma OpenControlMoves(r: Receiver, cfg: Config, m: Control)
    requires r.task == Opening(OnControl(m))
    ensures Moves(r, OpenControl(r, cfg, m))
  {
    match m
    case Manifest(entries) =>
      OpenManifestMoves(r, cfg, entries);
    case FileBegin(id, name, size) => OpenFileBeginAside(r, id, name, size);
    case Restart(id) => OpenFileEndAside(r, id, 0);
    case FileEnd(id, sha256) => OpenFileEndAside(r, id, sha256);
    case AllDone => OpenAllDoneAside(r);
    case _ =>
  }

  lemma PublishMoves(r: Receiver, cfg: Config, h: Hash, choice: Choice)
    requires TaskOk(r) && r.task.Publishing?
    ensures Moves(r, WorkOn(r, cfg, h, choice))
  {
    EndsAside(r, r.task.id);
  }

  lemma LinkedMoves(r: Receiver, id: nat, ok: bool)
    ensures Moves(r, PublishReturns(r, id, ok))
  {
    EndsAside(r.(finals := r.finals - {id}), id);
  }

  lemma CleaningMoves(r: Receiver, id: nat)
    ensures Moves(r, GiveUp(Unpublish(r, id), id))
  {
    EndsAside(Unpublish(r, id), id);
  }

  lemma FinalizingMoves(r: Receiver, cfg: Config, h: Hash, choice: Choice)
    requires r.task.EndingStream? || r.task.DigestingPart? || r.task.SealingOk? || r.task.DigestingFinal?
    ensures Moves(r, WorkOn(r, cfg, h, choice))
  {
    EndsAside(r, r.task.id);
    ChecksAside(r, h, r.task.id);
    CheckFinalAside(r, h, r.task.id, choice.ok);
    AsideMoves(r, WorkOn(r, cfg, h, choice));
  }

  lemma WorkMoves(r: Receiver, cfg: Config, h: Hash, choice: Choice)
    requires TaskOk(r)
    ensures Moves(r, WorkOn(r, cfg, h, choice))
  {
    AsideMoves(r, Goto(r, Throwing));
    match r.task
    case Opening(OnControl(m)) => OpenControlMoves(r, cfg, m);
    case Opening(OnBulk(c)) => OpenChunkAside(r, c);
    case Publishing(_) => PublishMoves(r, cfg, h, choice);
    case Linked(id) => LinkedMoves(r, id, choice.ok);
    case CleaningFinal(id) => CleaningMoves(r, id);
    case EndingStream(_) => FinalizingMoves(r, cfg, h, choice);
    case DigestingPart(_) => FinalizingMoves(r, cfg, h, choice);
    case SealingOk(_) => FinalizingMoves(r, cfg, h, choice);
    case DigestingFinal(_) => FinalizingMoves(r, cfg, h, choice);
    case Reserving(_, _) => FillingAside(r, cfg, h, choice);
    case Restarting(_) => FillingAside(r, cfg, h, choice);
    case Writing(_, _) => FillingAside(r, cfg, h, choice);
    case _ => TalkingAside(r, cfg, h, choice);
  }

  lemma ExpectsGenuine(r: Receiver, t: Receiver, plan: seq<SendFile>, h: Hash, id: nat, sha256: Digest)
    requires Announced(r, plan, h) && Expects(r, t, id, sha256) && id < |plan| && sha256 == Sha(h, plan, id)
    ensures ExpectsOnlySha(t, plan, h)
  {
    var expecting := r.(files := r.files[id := r.files[id].(expectedSha := Some(sha256))]);
    assert ExpectsOnlySha(expecting, plan, h);
    SilentGenuine(expecting, t, plan, h);
  }

  lemma SilentGenuine(r: Receiver, t: Receiver, plan: seq<SendFile>, h: Hash)
    requires ExpectsOnlySha(r, plan, h) && Silent(r, t)
    ensures ExpectsOnlySha(t, plan, h)
  {
    assert forall id :: id in r.files ==> StateQuiet(r.files[id], t.files[id]);
  }

  lemma ExpectationsGenuine(r: Receiver, t: Receiver, plan: seq<SendFile>, h: Hash)
    requires Announced(r, plan, h) && OneOfTheKinds(h, r, t, r.task)
    ensures ExpectsOnlySha(t, plan, h)
  {
    if Silent(r, t) {
      SilentGenuine(r, t, plan, h);
    } else if t.files != r.files && r.task.Opening? {
      var m := r.task.message.control;
      ExpectsGenuine(r, t, plan, h, m.id, m.sha256);
    }
  }

  /** Any step but the arrival of a message. */
  lemma StepAnnounced(r: Receiver, plan: seq<SendFile>, cfg: Config, h: Hash, e: ReceiverEvent)
    requires TaskOk(r) && Announced(r, plan, h) && !e.Take?
    ensures Announced(ReceiverStep(r, cfg, h, e), plan, h)
  {
    StepKind(r, cfg, h, e);
    ExpectationsGenuine(r, ReceiverStep(r, cfg, h, e), plan, h);
    if e.Work? {
      WorkMoves(r, cfg, h, e.choice);
    } else {
      OtherStepsWait(r, cfg, h, e);
    }
  }

  lemma CleanupWaits(r: Receiver, cfg: Config, h: Hash, e: ReceiverEvent)
    requires e.VisitFile? || e.FinishRemoval? || e.FinishCleanup?
    ensures ReceiverStep(r, cfg, h, e).task == r.task && ReceiverStep(r, cfg, h, e).manifest == r.manifest
  {
  }

  lemma OtherStepsWait(r: Receiver, cfg: Config, h: Hash, e: ReceiverEvent)
    requires !e.Work? && !e.Take?
    ensures ReceiverStep(r, cfg, h, e).task == r.task && ReceiverStep(r, cfg, h, e).manifest == r.manifest
  {
    if e.VisitFile? || e.FinishRemoval? || e.FinishCleanup? {
      CleanupWaits(r, cfg, h, e);
    }
  }

  /** What was sent stays sent, and only grows at the end. */
  lemma SentGrows(r: Receiver, cfg: Config, h: Hash, e: ReceiverEvent)
    requires TaskOk(r)
    ensures r.sent <= ReceiverStep(r, cfg, h, e).sent
  {
    StepKind(r, cfg, h, e);
  }

  // ----- the invariant of the pair -----

  /** The file the sender has come to: every file before it was acknowledged. */
  function Passed(s: Sender, plan: seq<SendFile>): nat {
    match s.pc
    case AtBegin(f) => f
    case AwaitReady(f) => f
    case Verifying(f) => f
    case AwaitRestart(f) => f
    case Streaming(f, _) => f
    case Sealed(f, _) => f
    case AwaitFileOk(f) => f
    case AwaitAllDoneOk => |plan|
    case Returned => |plan|
    case _ => 0
  }

  ghost predicate SenderAcked(s: Sender, r: Receiver, plan: seq<SendFile>) {
    && (forall id: nat :: id < Passed(s, plan) && id < |plan| ==> FileOk(id) in r.sent)
    && (s.pc.Returned? ==> AllDoneOk in r.sent)
  }

  ghost predicate QueuesGenuine(n: Net, plan: seq<SendFile>, h: Hash) {
    && (forall i :: 0 <= i < |n.control| ==> Genuine(n.control[i], plan, h))
    && (forall i :: 0 <= i < |n.back| ==> n.back[i] in n.r.sent)
  }

  ghost predicate NetInv(n: Net, plan: seq<SendFile>, h: Hash) {
    && Inv(n.r) && AckOk(n.r) && Announced(n.r, plan, h)
    && SealedFromPlan(n.s, plan)
    && SenderAcked(n.s, n.r, plan)
    && QueuesGenuine(n, plan, h)
  }

  lemma AdvanceGenuine(s: Sender, plan: seq<SendFile>, h: Hash)
    requires SealedFromPlan(s, plan)
    ensures forall i :: 0 <= i < |Advance(s, plan, h).1.control| ==> Genuine(Advance(s, plan, h).1.control[i], plan, h)
  {
  }

  lemma AdvanceAcked(s: Sender, r: Receiver, plan: seq<SendFile>, h: Hash)
    requires SenderAcked(s, r, plan)
    ensures SenderAcked(Advance(s, plan, h).0, r, plan)
  {
    var t := Advance(s, plan, h).0;
    assert t.pc.Returned? ==> s.pc.Returned?;
    if t.pc.AwaitAllDoneOk? && s.pc.AtBegin? {
      assert Passed(t, plan) == |plan| <= Passed(s, plan);
    } else {
      assert Passed(t, plan) <= Passed(s, plan);
    }
  }

  lemma ReceiveAcked(s: Sender, r: Receiver, plan: seq<SendFile>, m: Control)
    requires SenderAcked(s, r, plan) && m in r.sent
    ensures SenderAcked(Receive(s, m), r, plan)
  {
    var t := Receive(s, m);
    if t.pc == s.pc {
    } else if m.FileOk? {
      assert s.pc == AwaitFileOk(m.id) && t.pc == AtBegin(m.id + 1);
    } else if m.AllDoneOk? {
      assert s.pc.AwaitAllDoneOk?;
    } else {
      assert m.Ready? && Passed(t, plan) == Passed(s, plan) && !t.pc.Returned?;
    }
  }

  lemma TroubleAcked(s: Sender, r: Receiver, plan: seq<SendFile>, h: Hash, e: SenderEvent)
    requires SenderAcked(s, r, plan) && IsTrouble(e)
    ensures SenderAcked(SenderStep(s, plan, h, e), r, plan)
  {
    var t := SenderStep(s, plan, h, e);
    assert t.pc == s.pc || t.pc.Threw?;
  }

  lemma SenderProceedsKeeps(n: Net, plan: seq<SendFile>, cfg: Config, h: Hash)
    requires NetInv(n, plan, h)
    ensures NetInv(NetStep(n, plan, cfg, h, SenderProceeds), plan, h)
  {
    AdvanceGenuine(n.s, plan, h);
    AdvanceAcked(n.s, n.r, plan, h);
    StepSealsFromPlan(n.s, plan, h, Proceed);
  }

  lemma SenderTakesKeeps(n: Net, plan: seq<SendFile>, cfg: Config, h: Hash)
    requires NetInv(n, plan, h)
    ensures NetInv(NetStep(n, plan, cfg, h, SenderTakes), plan, h)
  {
    if n.back != [] {
      ReceiveAcked(n.s, n.r, plan, n.back[0]);
      StepSealsFromPlan(n.s, plan, h, Incoming(n.back[0]));
    }
  }

  lemma SenderMeetsKeeps(n: Net, plan: seq<SendFile>, cfg: Config, h: Hash, trouble: SenderEvent)
    requires NetInv(n, plan, h)
    ensures NetInv(NetStep(n, plan, cfg, h, SenderMeets(trouble)), plan, h)
  {
    if IsTrouble(trouble) {
      TroubleAcked(n.s, n.r, plan, h, trouble);
      StepSealsFromPlan(n.s, plan, h, trouble);
    }
  }

  lemma TakeKeeps(n: Net, plan: seq<SendFile>, cfg: Config, h: Hash, m: Message)
    requires NetInv(n, plan, h) && (m.OnControl? ==> Genuine(m.control, plan, h))
    ensures var t := ReceiverStep(n.r, cfg, h, Take(m)); NetInv(n.(r := t), plan, h)
  {
    BothKept(n.r, cfg, h, Take(m));
  }

  lemma QueuesShrink(n: Net, plan: seq<SendFile>, h: Hash, control: seq<Control>, bulk: seq<Chunk>)
    requires NetInv(n, plan, h)
    requires forall i :: 0 <= i < |control| ==> Genuine(control[i], plan, h)
    ensures NetInv(n.(control := control, bulk := bulk), plan, h)
  {
  }

  lemma ReceiverMeetsKeeps(n: Net, plan: seq<SendFile>, cfg: Config, h: Hash, e: ReceiverEvent)
    requires NetInv(n, plan, h) && !e.Take?
    ensures NetInv(ReceiverMoves(n, cfg, h, e), plan, h)
  {
    var t := ReceiverStep(n.r, cfg, h, e);
    BothKept(n.r, cfg, h, e);
    StepAnnounced(n.r, plan, cfg, h, e);
    SentGrows(n.r, cfg, h, e);
    MovesKeep(n, ReceiverMoves(n, cfg, h, e), plan, h);
  }

  lemma MovesKeep(n: Net, m: Net, plan: seq<SendFile>, h: Hash)
    requires NetInv(n, plan, h) && n.r.sent <= m.r.sent
    requires m == n.(r := m.r, back := n.back + NewlySent(n.r, m.r))
    ensures QueuesGenuine(m, plan, h) && SenderAcked(m.s, m.r, plan)
  {
    assert m.r.sent == n.r.sent + NewlySent(n.r, m.r);
    assert forall x :: x in n.r.sent ==> x in m.r.sent;
  }

  lemma NetStepKeeps(n: Net, plan: seq<SendFile>, cfg: Config, h: Hash, e: NetEvent)
    requires NetInv(n, plan, h)
    ensures NetInv(NetStep(n, plan, cfg, h, e), plan, h)
  {
    match e
    case SenderProceeds => SenderProceedsKeeps(n, plan, cfg, h);
    case SenderTakes => SenderTakesKeeps(n, plan, cfg, h);
    case SenderMeets(trouble) => SenderMeetsKeeps(n, plan, cfg, h, trouble);
    case ReceiverTakesControl =>
      if n.control != [] && n.r.task.Idle? && !Stopped(n.r) {
        QueuesShrink(n, plan, h, n.control[1..], n.bulk);
        TakeKeeps(n.(control := n.control[1..]), plan, cfg, h, OnControl(n.control[0]));
      }
    case ReceiverTakesChunk =>
      if n.bulk != [] && n.r.task.Idle? && !Stopped(n.r) {
        QueuesShrink(n, plan, h, n.control, n.bulk[1..]);
        TakeKeeps(n.(bulk := n.bulk[1..]), plan, cfg, h, OnBulk(n.bulk[0]));
      }
    case ReceiverMeets(event) =>
      if !event.Take? {
        ReceiverMeetsKeeps(n, plan, cfg, h, event);
      }
    case QueuesLost => QueuesShrink(n, plan, h, [], []);
  }

  lemma {:induction false} EveryNetRunKeeps(plan: seq<SendFile>, cfg: Config, h: Hash, events: seq<NetEvent>)
    ensures NetInv(NetRun(plan, cfg, h, events), plan, h)
  {
    if events != [] {
      EveryNetRunKeeps(plan, cfg, h, events[..|events| - 1]);
      NetStepKeeps(NetRun(plan, cfg, h, events[..|events| - 1]), plan, cfg, h, events[|events| - 1]);
    } else {
      assert INITIAL_RECEIVER.files == map[];
    }
  }

  // ----- published bytes are what was verified, if nobody tampers with them -----

  /** The final file of a done file still has the digest that was verified. */
  ghost predicate FinalsMatch(r: Receiver, h: Hash) {
    forall id :: id in r.files && r.files[id].done && id in r.finals ==>
      id in r.verified && h(r.finals[id]) == r.verified[id]
  }

  lemma StepPublishes(r: Receiver, cfg: Config, h: Hash, e: ReceiverEvent)
    requires TaskOk(r) && !e.TamperFinal?
    ensures FinalsOnlyPublished(r, ReceiverStep(r, cfg, h, e))
  {
    if e.Work? {
      WorkMoves(r, cfg, h, e.choice);
    }
  }

  lemma MatchKept(r: Receiver, t: Receiver, h: Hash, task: Task)
    requires FinalsMatch(r, h) && FinalsOnlyPublished(r, t) && OneOfTheKinds(h, r, t, task)
    ensures FinalsMatch(t, h)
  {
    if Silent(r, t) {
      QuietMatch(r, t, h);
    } else if Says(r, t, Abort) || Completes(r, t) {
      SameFilesMatch(r, t, h);
    } else if task.Replying? {
      SameFilesMatch(r, t, h);
    } else if task.DigestingFinal? {
      AcknowledgedMatch(r, t, h, task.id);
    } else {
      ExpectedMatch(r, t, h, task.message.control.id, task.message.control.sha256);
    }
  }

  lemma SameFilesMatch(r: Receiver, t: Receiver, h: Hash)
    requires FinalsMatch(r, h) && FinalsOnlyPublished(r, t) && t.files == r.files && t.verified == r.verified
    ensures FinalsMatch(t, h)
  {
  }

  lemma AcknowledgedMatch(r: Receiver, t: Receiver, h: Hash, id: nat)
    requires FinalsMatch(r, h) && Acknowledges(h, r, t, id)
    ensures FinalsMatch(t, h)
  {
  }

  lemma ExpectedMatch(r: Receiver, t: Receiver, h: Hash, id: nat, sha256: Digest)
    requires FinalsMatch(r, h) && FinalsOnlyPublished(r, t) && Expects(r, t, id, sha256)
    ensures FinalsMatch(t, h)
  {
    var expecting := r.(files := r.files[id := r.files[id].(expectedSha := Some(sha256))]);
    assert FinalsMatch(expecting, h);
    QuietMatch(expecting, t, h);
  }

  lemma QuietMatch(r: Receiver, t: Receiver, h: Hash)
    requires FinalsMatch(r, h) && FinalsOnlyPublished(r, t) && Silent(r, t)
    ensures FinalsMatch(t, h)
  {
    assert forall id :: id in r.files ==> StateQuiet(r.files[id], t.files[id]);
  }

  predicate Untampered(events: seq<NetEvent>) {
    forall i :: 0 <= i < |events| && events[i].ReceiverMeets? ==> !events[i].event.TamperFinal?
  }

  lemma NetStepMatches(n: Net, plan: seq<SendFile>, cfg: Config, h: Hash, e: NetEvent)
    requires NetInv(n, plan, h) && FinalsMatch(n.r, h) && (e.ReceiverMeets? ==> !e.event.TamperFinal?)
    ensures FinalsMatch(NetStep(n, plan, cfg, h, e).r, h)
  {
    if e.ReceiverMeets? && !e.event.Take? {
      StepPublishes(n.r, cfg, h, e.event);
      StepKind(n.r, cfg, h, e.event);
      MatchKept(n.r, ReceiverStep(n.r, cfg, h, e.event), h, n.r.task);
    }
  }

  lemma {:induction false} EveryRunMatches(plan: seq<SendFile>, cfg: Config, h: Hash, events: seq<NetEvent>)
    requires Untampered(events)
    ensures FinalsMatch(NetRun(plan, cfg, h, events).r, h)
  {
    if events != [] {
      var before := events[..|events| - 1];
      EveryRunMatches(plan, cfg, h, before);
      EveryNetRunKeeps(plan, cfg, h, before);
      NetStepMatches(NetRun(plan, cfg, h, before), plan, cfg, h, events[|events| - 1]);
    }
  }

  // ----- the theorems -----

  lemma PlanIds(plan: seq<SendFile>)
    ensures forall id: nat :: id in Ids(EntriesOf(plan)) <==> id < |plan|
  {
    var entries := EntriesOf(plan);
    forall id: nat | id < |plan|
      ensures id in Ids(entries)
    {
      assert entries[id].id == id;
    }
  }

  /**
   One-way agreement. Whatever fails, times out, is lost or tampered with: a sender that
   returns normally left a receiver that completed and keeps a final file for every file of
   the plan, each verified against the digest the sender had computed. Before that, every
   file the sender has gone past was published and verified in the same way.
  */
  lemma AgreementTheorem(plan: seq<SendFile>, cfg: Config, h: Hash, events: seq<NetEvent>)
    ensures var n := NetRun(plan, cfg, h, events);
            && (n.s.pc.Returned? ==> n.r.completed && (forall id: nat :: id in n.r.finals <==> id < |plan|))
            && (forall id: nat :: id < Passed(n.s, plan) && id < |plan| ==>
                  && id in n.r.verified && n.r.verified[id] == Sha(h, plan, id)
                  && (!n.r.failed ==> id in n.r.finals))
  {
    EveryNetRunKeeps(plan, cfg, h, events);
    InvAgrees(NetRun(plan, cfg, h, events), plan, h);
  }

  lemma InvAgrees(n: Net, plan: seq<SendFile>, h: Hash)
    requires NetInv(n, plan, h)
    ensures n.s.pc.Returned? ==> n.r.completed && (forall id: nat :: id in n.r.finals <==> id < |plan|)
    ensures forall id: nat :: id < Passed(n.s, plan) && id < |plan| ==>
              && id in n.r.verified && n.r.verified[id] == Sha(h, plan, id)
              && (!n.r.failed ==> id in n.r.finals)
  {
    PlanIds(plan);
    if n.s.pc.Returned? {
      CompletedPublished(n.r);
    }
    forall id: nat | id < Passed(n.s, plan) && id < |plan|
      ensures id in n.r.verified && n.r.verified[id] == Sha(h, plan, id) && (!n.r.failed ==> id in n.r.finals)
    {
      assert FileOk(id) in n.r.sent;
    }
  }

  /** No other bytes have the digest of this content. */
  ghost predicate NoCollision(h: Hash, content: Bytes) { forall other: Bytes :: h(other) == h(content) ==> other == content }

  /**
   In bytes: if nobody changes published files and no digest of the plan collides, a sender
   that returns normally left exactly its own bytes in every final file, although partial
   files may have been junk, tampered with or resumed.
  */
  lemma AgreementOnBytes(plan: seq<SendFile>, cfg: Config, h: Hash, events: seq<NetEvent>)
    requires Untampered(events)
    requires forall i :: 0 <= i < |plan| ==> NoCollision(h, plan[i].content)
    ensures var n := NetRun(plan, cfg, h, events);
            n.s.pc.Returned? ==>
              && (forall id: nat :: id in n.r.finals <==> id < |plan|)
              && forall i :: 0 <= i < |plan| ==> i in n.r.finals && n.r.finals[i] == plan[i].content
  {
    EveryRunMatches(plan, cfg, h, events);
    EveryNetRunKeeps(plan, cfg, h, events);
    InvAgreesOnBytes(NetRun(plan, cfg, h, events), plan, h);
  }

  lemma InvAgreesOnBytes(n: Net, plan: seq<SendFile>, h: Hash)
    requires NetInv(n, plan, h) && FinalsMatch(n.r, h)
    requires forall i :: 0 <= i < |plan| ==> NoCollision(h, plan[i].content)
    ensures n.s.pc.Returned? ==>
              && (forall id: nat :: id in n.r.finals <==> id < |plan|)
              && forall i :: 0 <= i < |plan| ==> i in n.r.finals && n.r.finals[i] == plan[i].content
  {
    InvAgrees(n, plan, h);
    if n.s.pc.Returned? {
      forall i | 0 <= i < |plan|
        ensures i in n.r.finals && n.r.finals[i] == plan[i].content
      {
        assert FileOk(i) in n.r.sent;
        assert h(n.r.finals[i]) == h(plan[i].content);
      }
    }
  }
}
