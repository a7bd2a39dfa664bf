/**
 The receiver of a transfer as a machine with one step per await point.

 Messages are handled one at a time, because the receive queue is serial; a handler is a
 `Task` that `Work` moves from one await to the next. Between any two of its steps the
 transfer may fail (closed channel, timeout, stream error, full queue: `Fails`), and after a
 failure the cleanup loop runs beside the task that is still in flight.

 A final file is an entry of `finals`; `published` says that the receiver remembers having
 made it. Files on disk may be changed by others at any moment (`Tamper...`).
*/
module ReceiverMachine {
  import opened Prelude
  import opened Frames
  import opened SenderMachine

  datatype FileState = FileState(
    size: nat,
    hashed: Bytes,
    disk: Bytes,
    expectedSeq: nat,
    expectedSha: Option<Digest>,
    published: bool,
    done: bool,
    finalizing: bool)

  datatype Message = OnControl(control: Control) | OnBulk(chunk: Chunk)

  datatype Task =
    | Idle
    | Opening(message: Message)
    | Reserving(id: nat, size: nat)
    | Restarting(id: nat)
    | Replying(reply: Control)
    | Writing(id: nat, payload: Bytes)
    | EndingStream(id: nat)
    | DigestingPart(id: nat)
    | SealingOk(id: nat)
    | Publishing(id: nat)
    | Linked(id: nat)
    | DigestingFinal(id: nat)
    | CleaningFinal(id: nat)
    | Resolving
    | Throwing

  datatype Cleanup =
    | NotStarted
    | Visiting(visited: set<nat>)
    | Removing(id: nat, visited: set<nat>)
    | Finished(visited: set<nat>)

  datatype Receiver = Receiver(
    manifest: Option<seq<Entry>>,
    files: map<nat, FileState>,
    finals: map<nat, Bytes>,
    verified: map<nat, Digest>,
    allDoneSeen: bool,
    failed: bool,
    completed: bool,
    channelOpen: bool,
    task: Task,
    cleanup: Cleanup,
    sent: seq<Control>)

  const INITIAL_RECEIVER := Receiver(None, map[], map[], map[], false, false, false, true, Idle, NotStarted, [])

  /** What the receiver was started with: resuming or not, and the manifest the user accepted. */
  datatype Config = Config(resume: bool, accepted: Option<seq<Entry>>)

  /** What the surroundings give to one step: whether it works, and the partial file found on disk. */
  datatype Choice = Choice(ok: bool, partial: Bytes)

  datatype ReceiverEvent =
    | Take(message: Message)
    | Work(choice: Choice)
    | Fails
    | ChannelCloses
    | TamperPart(id: nat, content: Bytes)
    | TamperFinal(id: nat, content: Bytes)
    | StartCleanup
    | VisitFile(id: nat)
    | FinishRemoval
    | FinishCleanup

  // ----- small pieces -----

  predicate Stopped(r: Receiver) { r.failed || r.completed }

  function Goto(r: Receiver, task: Task): Receiver { r.(task := task) }

  function Put(r: Receiver, id: nat, state: FileState): Receiver { r.(files := r.files[id := state]) }

  /** The entry of the manifest with this id. */
  function Find(entries: seq<Entry>, id: nat): Option<Entry> {
    if entries == [] then None
    else if entries[|entries| - 1].id == id then Some(entries[|entries| - 1])
    else Find(entries[..|entries| - 1], id)
  }

  function Ids(entries: seq<Entry>): set<nat> { set i | 0 <= i < |entries| :: entries[i].id }

  /** The manifest limits that are not about names: number of files, sizes, canonical ids. */
  predicate WithinLimits(entries: seq<Entry>) {
    && 1 <= |entries| <= 100
    && forall i :: 0 <= i < |entries| ==> entries[i].id == i && entries[i].size <= MAX_FILE_BYTES
  }

  /** Within the limits, and the manifest the user accepted if there is one. */
  predicate Acceptable(cfg: Config, entries: seq<Entry>) {
    WithinLimits(entries) && (cfg.accepted.Some? ==> cfg.accepted.value == entries)
  }

  /** The announced entry exists and is what the sender begins. */
  predicate Matches(expected: Option<Entry>, name: int, size: nat) {
    expected.Some? && expected.value.name == name && expected.value.size == size
  }

  /** removePublishedFile, the removal succeeding. */
  function Unpublish(r: Receiver, id: nat): Receiver {
    if id in r.files && r.files[id].published
    then Put(r, id, r.files[id].(published := false)).(finals := r.finals - {id})
    else r
  }

  /** A sealed message is handed to the channel; a closed channel throws. */
  function SendThen(r: Receiver, m: Control, next: Receiver): Receiver {
    if r.channelOpen then next.(sent := r.sent + [m]) else Goto(r, Throwing)
  }

  // ----- the end of a handler -----

  predicate AllFilesDone(r: Receiver) { forall id :: id in r.files ==> r.files[id].done }

  function ResolveDone(r: Receiver): Receiver {
    Goto(r, if r.allDoneSeen && AllFilesDone(r) then Resolving else Idle)
  }

  predicate ReadyToFinalize(state: FileState) {
    !state.done && !state.finalizing && state.expectedSha.Some? && |state.hashed| >= state.size
  }

  /** maybeFinalize, then maybeResolveDone. */
  function Finalize(r: Receiver, id: nat): Receiver {
    if id in r.files && ReadyToFinalize(r.files[id])
    then Goto(Put(r, id, r.files[id].(finalizing := true)), EndingStream(id))
    else ResolveDone(r)
  }

  // ----- the start of a handler -----

  function OpenManifest(r: Receiver, cfg: Config, entries: seq<Entry>): Receiver {
    if r.manifest.Some? then Goto(r, Throwing)
    else Goto(r.(manifest := Some(entries)), if Acceptable(cfg, entries) then Idle else Throwing)
  }

  function OpenFileBegin(r: Receiver, id: nat, name: int, size: nat): Receiver {
    Goto(r, if r.manifest.Some? && id !in r.files && Matches(Find(r.manifest.value, id), name, size)
            then Reserving(id, size) else Throwing)
  }

  function OpenRestart(r: Receiver, id: nat): Receiver {
    Goto(r, if id !in r.files || r.files[id].done || r.files[id].expectedSha.Some? then Throwing else Restarting(id))
  }

  function OpenFileEnd(r: Receiver, id: nat, sha256: Digest): Receiver {
    if id !in r.files || r.files[id].expectedSha.Some? then Goto(r, Throwing)
    else Finalize(Put(r, id, r.files[id].(expectedSha := Some(sha256))), id)
  }

  function OpenAllDone(r: Receiver): Receiver {
    if r.manifest.None? || r.allDoneSeen || |r.files| != |Ids(r.manifest.value)| then Goto(r, Throwing)
    else ResolveDone(r.(allDoneSeen := true))
  }

  function OpenControl(r: Receiver, cfg: Config, m: Control): Receiver {
    match m
    case Manifest(entries) => OpenManifest(r, cfg, entries)
    case FileBegin(id, name, size) => OpenFileBegin(r, id, name, size)
    case Restart(id) => OpenRestart(r, id)
    case FileEnd(id, sha256) => OpenFileEnd(r, id, sha256)
    case AllDone => OpenAllDone(r)
    case _ => Goto(r, Throwing)
  }

  function OpenChunk(r: Receiver, c: Chunk): Receiver {
    if c.id !in r.files then Goto(r, Throwing)
    else
      var state := r.files[c.id];
      if state.done || (state.expectedSha.Some? && |state.hashed| >= state.size) then Goto(r, Throwing)
      else if c.seqNo != state.expectedSeq then Goto(r, Throwing)
      else if |c.payload| == 0 || |state.hashed| + |c.payload| > state.size then Goto(r, Throwing)
      else
        Goto(Put(r, c.id, state.(expectedSeq := state.expectedSeq + 1, hashed := state.hashed + c.payload)),
             Writing(c.id, c.payload))
  }

  // ----- the middle of a handler -----

  function Reserve(r: Receiver, cfg: Config, h: Hash, id: nat, size: nat, partial: Bytes): Receiver {
    var resumed := if cfg.resume then partial[..ResumeOffset(|partial|, size)] else [];
    var state := FileState(size, resumed, resumed, StartSeq(size, |resumed|), None, false, false, false);
    Goto(Put(r, id, state), Replying(Ready(id, |resumed|, if |resumed| > 0 then Some(h(resumed)) else None)))
  }

  function RestartFile(r: Receiver, id: nat): Receiver {
    if id !in r.files then Goto(r, Throwing)
    else Goto(Put(r, id, r.files[id].(hashed := [], disk := [], expectedSeq := 0)), Replying(Ready(id, 0, None)))
  }

  function Write(r: Receiver, id: nat, payload: Bytes): Receiver {
    if id !in r.files then Goto(r, Throwing)
    else Finalize(Put(r, id, r.files[id].(disk := r.files[id].disk + payload)), id)
  }

  /** The rejected branch of maybeFinalize: `finalizing` is reset, the error goes on. */
  function GiveUp(r: Receiver, id: nat): Receiver {
    Goto(if id in r.files then Put(r, id, r.files[id].(finalizing := false)) else r, Throwing)
  }

  /** The first digest check of maybeFinalize, on the bytes received. */
  function CheckReceived(r: Receiver, h: Hash, id: nat): Receiver {
    if Stopped(r) || id !in r.files || Some(h(r.files[id].hashed)) != r.files[id].expectedSha then GiveUp(r, id)
    else Goto(r, DigestingPart(id))
  }

  /** The second one, on the partial file read back from disk. */
  function CheckPart(r: Receiver, h: Hash, id: nat): Receiver {
    if Stopped(r) || id !in r.files || |r.files[id].disk| != r.files[id].size
       || Some(h(r.files[id].disk)) != r.files[id].expectedSha
    then GiveUp(r, id)
    else Goto(r, SealingOk(id))
  }

  function Publish(r: Receiver, id: nat): Receiver {
    if id !in r.files || |r.files[id].disk| != r.files[id].size then GiveUp(r, id)
    else Goto(r.(finals := r.finals[id := r.files[id].disk]), Linked(id))
  }

  /** publishPartFile returns: with an identity, or after removing what it had made. */
  function PublishReturns(r: Receiver, id: nat, ok: bool): Receiver {
    if id !in r.files then Goto(r, Throwing)
    else if !ok then GiveUp(r.(finals := r.finals - {id}), id)
    else
      var remembered := Put(r, id, r.files[id].(published := true));
      Goto(remembered, if Stopped(r) then CleaningFinal(id) else DigestingFinal(id))
  }

  /** The last digest check, on the final file, and the acknowledgement. */
  function CheckFinal(r: Receiver, h: Hash, id: nat, ok: bool): Receiver {
    if !ok || id !in r.files || id !in r.finals || |r.finals[id]| != r.files[id].size then GiveUp(r, id)
    else if Stopped(r) || Some(h(r.finals[id])) != r.files[id].expectedSha then Goto(r, CleaningFinal(id))
    else if !r.channelOpen then GiveUp(r, id)
    else
      ResolveDone(Put(r, id, r.files[id].(done := true))
                    .(sent := r.sent + [FileOk(id)], verified := r.verified[id := h(r.finals[id])]))
  }

  /** The catch branch of a handler: the first failure counts. */
  function Caught(r: Receiver): Receiver { Goto(if Stopped(r) then r else r.(failed := true), Idle) }

  /** One step of the task in flight. */
  function WorkOn(r: Receiver, cfg: Config, h: Hash, choice: Choice): Receiver {
    match r.task
    case Idle => r
    case Opening(OnControl(m)) => if !choice.ok || Stopped(r) then Goto(r, Throwing) else OpenControl(r, cfg, m)
    case Opening(OnBulk(c)) => if !choice.ok || Stopped(r) then Goto(r, Throwing) else OpenChunk(r, c)
    case Reserving(id, size) =>
      if !choice.ok then Goto(r, Throwing) else Reserve(r, cfg, h, id, size, choice.partial)
    case Restarting(id) => if !choice.ok then Goto(r, Throwing) else RestartFile(r, id)
    case Replying(reply) => if Stopped(r) then Goto(r, Throwing) else SendThen(r, reply, Goto(r, Idle))
    case Writing(id, payload) => if !choice.ok then Goto(r, Throwing) else Write(r, id, payload)
    case EndingStream(id) => if !choice.ok then GiveUp(r, id) else CheckReceived(r, h, id)
    case DigestingPart(id) => if !choice.ok then GiveUp(r, id) else CheckPart(r, h, id)
    case SealingOk(id) => if Stopped(r) then GiveUp(r, id) else Goto(r, Publishing(id))
    case Publishing(id) => if !choice.ok then GiveUp(r, id) else Publish(r, id)
    case Linked(id) => PublishReturns(r, id, choice.ok)
    case DigestingFinal(id) => CheckFinal(r, h, id, choice.ok)
    case CleaningFinal(id) => GiveUp(Unpublish(r, id), id)
    case Resolving => if Stopped(r) then Goto(r, Throwing) else SendThen(r, AllDoneOk, Goto(r, Idle).(completed := true))
    case Throwing => Caught(r)
  }

  // ----- after the transfer: rejectDone or resolveDone, then the cleanup loop -----

  /** One visit of the cleanup loop decides; the removal it starts takes effect later. */
  function Visit(r: Receiver, id: nat, visited: set<nat>): Receiver
    requires id in r.files
  {
    var state := r.files[id];
    if state.published && (if state.done then r.failed && !r.completed else true)
    then r.(cleanup := Removing(id, visited))
    else r.(cleanup := Visiting(visited + {id}))
  }

  function ReceiverStep(r: Receiver, cfg: Config, h: Hash, e: ReceiverEvent): Receiver {
    match e
    case Take(m) => if r.task.Idle? && !Stopped(r) then Goto(r, Opening(m)) else r
    case Work(choice) => WorkOn(r, cfg, h, choice)
    case Fails => if Stopped(r) then r else r.(failed := true)
    case ChannelCloses => r.(channelOpen := false)
    case TamperPart(id, content) => if id in r.files then Put(r, id, r.files[id].(disk := content)) else r
    case TamperFinal(id, content) => if id in r.finals then r.(finals := r.finals[id := content]) else r
    case StartCleanup =>
      if !r.cleanup.NotStarted? || !Stopped(r) then r
      else if r.failed then
        r.(cleanup := Visiting({}), channelOpen := false, sent := if r.channelOpen then r.sent + [Abort] else r.sent)
      else r.(cleanup := Visiting({}))
    case VisitFile(id) =>
      if r.cleanup.Visiting? && id in r.files && id !in r.cleanup.visited then Visit(r, id, r.cleanup.visited) else r
    case FinishRemoval =>
      if r.cleanup.Removing? then Unpublish(r, r.cleanup.id).(cleanup := Visiting(r.cleanup.visited + {r.cleanup.id})) else r
    case FinishCleanup =>
      if r.cleanup.Visiting? && r.files.Keys <= r.cleanup.visited then r.(cleanup := Finished(r.cleanup.visited)) else r
  }

  function ReceiverRun(cfg: Config, h: Hash, events: seq<ReceiverEvent>): Receiver {
    if events == [] then INITIAL_RECEIVER
    else ReceiverStep(ReceiverRun(cfg, h, events[..|events| - 1]), cfg, h, events[|events| - 1])
  }
}
