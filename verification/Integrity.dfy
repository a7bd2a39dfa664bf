/** What a receiver lets onto the disk: only bytes with the digest the sender announced. */
module Integrity {
  import opened Prelude
  import opened Frames
  import opened SenderMachine
  import opened ReceiverMachine
  import opened AllOrNothing
  import opened Acknowledgements
  import opened AcceptedFiles
  import Agreement

  // ----- only bytes with the announced digest -----

  /** The bytes received are all there and have the announced digest. */
  predicate Checked(state: FileState, h: Hash) {
    state.expectedSha == Some(h(state.hashed)) && |state.hashed| == state.size
  }

  predicate FileSound(state: FileState, h: Hash) {
    |state.hashed| <= state.size && (state.published || state.done ==> Checked(state, h))
  }

  ghost predicate FilesSound(files: map<nat, FileState>, h: Hash) { forall id :: id in files ==> FileSound(files[id], h) }

  /** From the first digest check on, the handler is about a checked file. */
  predicate TaskSound(r: Receiver, h: Hash) {
    match r.task
    case EndingStream(id) => id in r.files ==> r.files[id].expectedSha.Some? && |r.files[id].hashed| == r.files[id].size
    case DigestingPart(id) => id in r.files ==> Checked(r.files[id], h)
    case SealingOk(id) => id in r.files ==> Checked(r.files[id], h)
    case Publishing(id) => id in r.files ==> Checked(r.files[id], h)
    case Linked(id) => id in r.files ==> Checked(r.files[id], h)
    case DigestingFinal(id) => id in r.files ==> Checked(r.files[id], h)
    case CleaningFinal(id) => id in r.files ==> Checked(r.files[id], h)
    case _ => true
  }

  ghost predicate StreamOk(r: Receiver, h: Hash) { FilesSound(r.files, h) && TaskSound(r, h) }

  lemma PutSound(files: map<nat, FileState>, h: Hash, id: nat, state: FileState)
    requires FilesSound(files, h) && FileSound(state, h)
    ensures FilesSound(files[id := state], h)
  {
  }

  lemma FinalizeSound(r: Receiver, h: Hash, id: nat)
    requires FilesSound(r.files, h)
    ensures StreamOk(Finalize(r, id), h) && StreamOk(ResolveDone(r), h) && StreamOk(GiveUp(r, id), h)
  {
    if id in r.files {
      PutSound(r.files, h, id, r.files[id].(finalizing := true));
      PutSound(r.files, h, id, r.files[id].(finalizing := false));
    }
  }

  lemma FileEndSound(r: Receiver, h: Hash, id: nat, sha256: Digest)
    requires FilesSound(r.files, h)
    ensures StreamOk(OpenFileEnd(r, id, sha256), h)
  {
    if id in r.files && r.files[id].expectedSha.None? {
      var state := r.files[id].(expectedSha := Some(sha256));
      PutSound(r.files, h, id, state);
      FinalizeSound(Put(r, id, state), h, id);
    }
  }

  lemma OpenControlSound(r: Receiver, cfg: Config, h: Hash, m: Control)
    requires FilesSound(r.files, h)
    ensures StreamOk(OpenControl(r, cfg, m), h)
  {
    if m.FileEnd? {
      FileEndSound(r, h, m.id, m.sha256);
    } else if m.AllDone? {
      FinalizeSound(r.(allDoneSeen := true), h, 0);
    } else {
      ElseSound(r, cfg, h, m);
    }
  }

  lemma ElseSound(r: Receiver, cfg: Config, h: Hash, m: Control)
    requires FilesSound(r.files, h) && !m.FileEnd? && !m.AllDone?
    ensures StreamOk(OpenControl(r, cfg, m), h)
  {
    ElseKeepsFiles(r, cfg, m);
  }

  lemma ElseKeepsFiles(r: Receiver, cfg: Config, m: Control)
    requires !m.FileEnd? && !m.AllDone?
    ensures var t := OpenControl(r, cfg, m);
            t.files == r.files && (t.task.Idle? || t.task.Reserving? || t.task.Restarting? || t.task.Throwing?)
  {
    if m.Manifest? {
      assert OpenControl(r, cfg, m) == OpenManifest(r, cfg, m.files);
    } else if m.FileBegin? {
      assert OpenControl(r, cfg, m) == OpenFileBegin(r, m.id, m.name, m.size);
    } else if m.Restart? {
      assert OpenControl(r, cfg, m) == OpenRestart(r, m.id);
    } else {
      assert OpenControl(r, cfg, m) == Goto(r, Throwing);
    }
  }

  /** A checked file takes no more chunks. */
  lemma OpenChunkSound(r: Receiver, h: Hash, c: Chunk)
    requires FilesSound(r.files, h)
    ensures StreamOk(OpenChunk(r, c), h)
  {
    ChunkInTurn(r, c);
    if ChunkInOrder(r, c) {
      var state := WithChunk(r.files[c.id], c.payload);
      assert !Checked(r.files[c.id], h);
      PutSound(r.files, h, c.id, state);
    }
    TakenOrThrown(r, c);
  }

  lemma ReserveSound(r: Receiver, cfg: Config, h: Hash, id: nat, size: nat, partial: Bytes)
    requires FilesSound(r.files, h)
    ensures StreamOk(Reserve(r, cfg, h, id, size, partial), h)
  {
    ResumeOffsetIsGreatest(|partial|, size);
    var t := Reserve(r, cfg, h, id, size, partial);
    PutSound(r.files, h, id, t.files[id]);
  }

  lemma RestartSound(r: Receiver, h: Hash, id: nat)
    requires FilesSound(r.files, h) && (id in r.files ==> !r.files[id].done && !r.files[id].published)
    ensures StreamOk(RestartFile(r, id), h)
  {
    if id in r.files {
      PutSound(r.files, h, id, r.files[id].(hashed := [], disk := [], expectedSeq := 0));
    }
  }

  lemma WriteSound(r: Receiver, h: Hash, id: nat, payload: Bytes)
    requires FilesSound(r.files, h)
    ensures StreamOk(Write(r, id, payload), h)
  {
    if id in r.files {
      var state := r.files[id].(disk := r.files[id].disk + payload);
      PutSound(r.files, h, id, state);
      FinalizeSound(Put(r, id, state), h, id);
    }
  }

  lemma LinkedSound(r: Receiver, h: Hash, id: nat, ok: bool)
    requires StreamOk(r, h) && r.task == Linked(id)
    ensures StreamOk(PublishReturns(r, id, ok), h)
  {
    if id !in r.files {
      assert PublishReturns(r, id, ok) == Goto(r, Throwing);
    } else if ok {
      PutSound(r.files, h, id, r.files[id].(published := true));
    } else {
      FinalizeSound(r.(finals := r.finals - {id}), h, id);
    }
  }

  lemma CheckFinalSound(r: Receiver, h: Hash, id: nat, ok: bool)
    requires StreamOk(r, h) && r.task == DigestingFinal(id)
    ensures StreamOk(CheckFinal(r, h, id, ok), h)
  {
    FinalizeSound(r, h, id);
    if id in r.files && id in r.finals {
      var state := r.files[id].(done := true);
      PutSound(r.files, h, id, state);
      FinalizeSound(Put(r, id, state).(sent := r.sent + [FileOk(id)], verified := r.verified[id := h(r.finals[id])]), h, id);
    }
  }

  lemma UnpublishSound(r: Receiver, h: Hash, id: nat)
    requires StreamOk(r, h)
    ensures StreamOk(Unpublish(r, id), h)
  {
    if id in r.files {
      PutSound(r.files, h, id, r.files[id].(published := false));
    }
  }

  lemma LateSound(r: Receiver, cfg: Config, h: Hash, choice: Choice)
    requires StreamOk(r, h)
    requires r.task.EndingStream? || r.task.DigestingPart? || r.task.SealingOk? || r.task.Publishing? || r.task.CleaningFinal?
    ensures StreamOk(WorkOn(r, cfg, h, choice), h)
  {
    FinalizeSound(r, h, r.task.id);
    UnpublishSound(r, h, r.task.id);
    FinalizeSound(Unpublish(r, r.task.id), h, r.task.id);
  }

  lemma OpeningSound(r: Receiver, cfg: Config, h: Hash, choice: Choice)
    requires StreamOk(r, h) && r.task.Opening?
    ensures StreamOk(WorkOn(r, cfg, h, choice), h)
  {
    match r.task.message
    case OnControl(m) => OpenControlSound(r, cfg, h, m);
    case OnBulk(c) => OpenChunkSound(r, h, c);
  }

  lemma WorkSound(r: Receiver, cfg: Config, h: Hash, choice: Choice)
    requires Inv(r) && StreamOk(r, h)
    ensures StreamOk(WorkOn(r, cfg, h, choice), h)
  {
    match r.task
    case Opening(_) => OpeningSound(r, cfg, h, choice);
    case EndingStream(_) => LateSound(r, cfg, h, choice);
    case DigestingPart(_) => LateSound(r, cfg, h, choice);
    case SealingOk(_) => LateSound(r, cfg, h, choice);
    case Publishing(_) => LateSound(r, cfg, h, choice);
    case CleaningFinal(_) => LateSound(r, cfg, h, choice);
    case Linked(id) => LinkedSound(r, h, id, choice.ok);
    case DigestingFinal(id) => CheckFinalSound(r, h, id, choice.ok);
    case _ => EarlySound(r, cfg, h, choice);
  }

  lemma EarlySound(r: Receiver, cfg: Config, h: Hash, choice: Choice)
    requires Inv(r) && FilesSound(r.files, h)
    requires r.task.Idle? || r.task.Reserving? || r.task.Restarting? || r.task.Writing? || r.task.Replying?
             || r.task.Resolving? || r.task.Throwing?
    ensures StreamOk(WorkOn(r, cfg, h, choice), h)
  {
    match r.task
    case Reserving(id, size) => ReserveSound(r, cfg, h, id, size, choice.partial);
    case Restarting(id) => RestartSound(r, h, id);
    case Writing(id, payload) => WriteSound(r, h, id, payload);
    case _ =>
  }

  lemma TamperSound(r: Receiver, h: Hash, id: nat, content: Bytes)
    requires StreamOk(r, h) && id in r.files
    ensures StreamOk(Put(r, id, r.files[id].(disk := content)), h)
  {
    PutSound(r.files, h, id, r.files[id].(disk := content));
  }

  lemma StepSound(r: Receiver, cfg: Config, h: Hash, e: ReceiverEvent)
    requires Inv(r) && StreamOk(r, h)
    ensures StreamOk(ReceiverStep(r, cfg, h, e), h)
  {
    if e.Work? {
      WorkSound(r, cfg, h, e.choice);
    } else if e.TamperPart? && e.id in r.files {
      TamperSound(r, h, e.id, e.content);
    } else if e.FinishRemoval? && r.cleanup.Removing? {
      UnpublishSound(r, h, r.cleanup.id);
    } else {
      OthersKeepFiles(r, cfg, h, e);
    }
  }

  /**
   Over every run: a file that is published, done or about to be published was received in
   full, and the bytes received have the digest the sender announced.
  */
  lemma {:induction false} PublishedAsAnnounced(cfg: Config, h: Hash, events: seq<ReceiverEvent>)
    ensures var r := ReceiverRun(cfg, h, events);
            && StreamOk(r, h)
            && forall id :: id in r.finals ==>
                 && id in r.files && |r.files[id].hashed| == r.files[id].size
                 && r.files[id].expectedSha == Some(h(r.files[id].hashed))
  {
    EveryRunKeeps(cfg, h, events);
    if events != [] {
      var before := events[..|events| - 1];
      PublishedAsAnnounced(cfg, h, before);
      EveryRunKeeps(cfg, h, before);
      StepSound(ReceiverRun(cfg, h, before), cfg, h, events[|events| - 1]);
    }
    var r := ReceiverRun(cfg, h, events);
    forall id | id in r.finals
      ensures id in r.files && Checked(r.files[id], h)
    {
      KnownIsChecked(r, h, id);
    }
  }

  lemma KnownIsChecked(r: Receiver, h: Hash, id: nat)
    requires Inv(r) && StreamOk(r, h) && id in r.finals
    ensures id in r.files && Checked(r.files[id], h)
  {
  }

  // ----- and on the disk, if nobody interferes -----

  /** A partial file about to be published was read back with the announced size and digest. */
  predicate DiskOk(r: Receiver, h: Hash) {
    r.task.SealingOk? || r.task.Publishing? ==>
      (r.task.id in r.files ==>
         |r.files[r.task.id].disk| == r.files[r.task.id].size && Some(h(r.files[r.task.id].disk)) == r.files[r.task.id].expectedSha)
  }

  ghost predicate FinalsOk(r: Receiver, h: Hash) {
    forall id :: id in r.finals ==>
      id in r.files && |r.finals[id]| == r.files[id].size && r.files[id].expectedSha == Some(h(r.finals[id]))
  }

  /** What was announced stays announced. */
  ghost predicate TermsStand(r: Receiver, t: Receiver) {
    forall id :: id in r.files && r.files[id].expectedSha.Some? ==>
      id in t.files && t.files[id].size == r.files[id].size && t.files[id].expectedSha == r.files[id].expectedSha
  }

  lemma SameTermsStand(r: Receiver, t: Receiver)
    requires Terms(t.files) == Terms(r.files)
    ensures TermsStand(r, t)
  {
    assert t.files.Keys == Terms(t.files).Keys == r.files.Keys;
    assert forall id :: id in t.files ==> (t.files[id].size, t.files[id].expectedSha) == Terms(t.files)[id];
    assert forall id :: id in r.files ==> (r.files[id].size, r.files[id].expectedSha) == Terms(r.files)[id];
  }

  lemma FileEndStands(r: Receiver, id: nat, sha256: Digest)
    ensures TermsStand(r, OpenFileEnd(r, id, sha256))
  {
    if id in r.files {
      var s := Put(r, id, r.files[id].(expectedSha := Some(sha256)));
      FinalizeTerms(s, id);
      SameTermsStand(s, Finalize(s, id));
      if r.files[id].expectedSha.None? {
        assert TermsStand(r, s);
        StandTwice(r, s, Finalize(s, id));
      }
    }
  }

  lemma StandTwice(r: Receiver, s: Receiver, t: Receiver)
    requires TermsStand(r, s) && TermsStand(s, t)
    ensures TermsStand(r, t)
  {
  }

  lemma OpeningStands(r: Receiver, cfg: Config, m: Control)
    requires r.task.Opening?
    ensures TermsStand(r, OpenControl(r, cfg, m))
  {
    if m.FileEnd? {
      FileEndStands(r, m.id, m.sha256);
    } else if m.Manifest? || m.FileBegin? {
      SameTermsStand(r, OpenControl(r, cfg, m));
    } else {
      OpeningTerms(r, cfg, m);
      SameTermsStand(r, OpenControl(r, cfg, m));
    }
  }

  lemma WorkStands(r: Receiver, cfg: Config, h: Hash, choice: Choice)
    requires Inv(r)
    ensures TermsStand(r, WorkOn(r, cfg, h, choice))
  {
    match r.task
    case Opening(OnControl(m)) => OpeningStands(r, cfg, m);
    case Opening(OnBulk(c)) =>
      OpenChunkTerms(r, c);
      SameTermsStand(r, OpenChunk(r, c));
    case Reserving(_, _) =>
    case _ =>
      MiddleTerms(r, cfg, h, choice);
      SameTermsStand(r, WorkOn(r, cfg, h, choice));
  }

  lemma StepStands(r: Receiver, cfg: Config, h: Hash, e: ReceiverEvent)
    requires Inv(r)
    ensures TermsStand(r, ReceiverStep(r, cfg, h, e))
  {
    if e.Work? {
      WorkStands(r, cfg, h, e.choice);
    } else {
      OtherTerms(r, cfg, h, e);
      SameTermsStand(r, ReceiverStep(r, cfg, h, e));
    }
  }

  predicate Undisturbed(e: ReceiverEvent) { !e.TamperPart? && !e.TamperFinal? }

  /** A final file appears with the bytes of the checked partial file. */
  lemma FinalsAppear(r: Receiver, cfg: Config, h: Hash, e: ReceiverEvent)
    requires Inv(r) && FinalsOk(r, h) && DiskOk(r, h) && Undisturbed(e)
    ensures FinalsOk(ReceiverStep(r, cfg, h, e), h)
  {
    var t := ReceiverStep(r, cfg, h, e);
    StepStands(r, cfg, h, e);
    if e.Work? && r.task.Publishing? {
      PublishingAppears(r, cfg, h, e.choice);
    } else {
      FinalsOnlyGo(r, cfg, h, e);
      FinalsRemain(r, t, h);
    }
  }

  lemma FinalsOnlyGo(r: Receiver, cfg: Config, h: Hash, e: ReceiverEvent)
    requires Inv(r) && Undisturbed(e) && !(e.Work? && r.task.Publishing?)
    ensures var t := ReceiverStep(r, cfg, h, e); forall id :: id in t.finals ==> id in r.finals && t.finals[id] == r.finals[id]
  {
    Agreement.StepPublishes(r, cfg, h, e);
    if !e.Work? && r.task.Publishing? {
      OthersMakeNone(r, cfg, h, e);
    }
  }

  lemma OthersMakeNone(r: Receiver, cfg: Config, h: Hash, e: ReceiverEvent)
    requires !e.Work? && Undisturbed(e)
    ensures var t := ReceiverStep(r, cfg, h, e); forall id :: id in t.finals ==> id in r.finals && t.finals[id] == r.finals[id]
  {
  }

  lemma FinalsRemain(r: Receiver, t: Receiver, h: Hash)
    requires FinalsOk(r, h) && TermsStand(r, t) && forall id :: id in t.finals ==> id in r.finals && t.finals[id] == r.finals[id]
    ensures FinalsOk(t, h)
  {
  }

  lemma PublishingAppears(r: Receiver, cfg: Config, h: Hash, choice: Choice)
    requires r.task.Publishing? && FinalsOk(r, h) && DiskOk(r, h) && TermsStand(r, WorkOn(r, cfg, h, choice))
    ensures FinalsOk(WorkOn(r, cfg, h, choice), h)
  {
    var id, t := r.task.id, WorkOn(r, cfg, h, choice);
    if choice.ok && id in r.files && |r.files[id].disk| == r.files[id].size {
      FinalAdded(r, t, h, id);
    } else {
      FinalsRemain(r, t, h);
    }
  }

  lemma FinalAdded(r: Receiver, t: Receiver, h: Hash, id: nat)
    requires FinalsOk(r, h) && TermsStand(r, t) && id in r.files && t.finals == r.finals[id := r.files[id].disk]
    requires |r.files[id].disk| == r.files[id].size && Some(h(r.files[id].disk)) == r.files[id].expectedSha
    ensures FinalsOk(t, h)
  {
  }

  lemma DiskStays(r: Receiver, cfg: Config, h: Hash, e: ReceiverEvent)
    requires Inv(r) && DiskOk(r, h) && Undisturbed(e)
    ensures DiskOk(ReceiverStep(r, cfg, h, e), h)
  {
    if e.Work? {
      WorkDisk(r, cfg, h, e.choice);
    } else if e.FinishRemoval? && r.cleanup.Removing? {
      UnpublishDisk(r, h, r.cleanup.id);
    } else {
      OthersKeepFiles(r, cfg, h, e);
    }
  }

  /** Not in the stretch between the check of the partial file and its publication. */
  predicate Elsewhere(task: Task) { !task.SealingOk? && !task.Publishing? }

  lemma EndsElsewhere(r: Receiver, id: nat)
    ensures Elsewhere(Finalize(r, id).task) && Elsewhere(ResolveDone(r).task) && Elsewhere(GiveUp(r, id).task)
  {
    assert ResolveDone(r).task.Resolving? || ResolveDone(r).task.Idle?;
  }

  lemma FileEndElsewhere(r: Receiver, id: nat, sha256: Digest)
    ensures Elsewhere(OpenFileEnd(r, id, sha256).task)
  {
    if id in r.files {
      EndsElsewhere(Put(r, id, r.files[id].(expectedSha := Some(sha256))), id);
    }
  }

  lemma OpeningElsewhere(r: Receiver, cfg: Config, h: Hash, choice: Choice)
    requires r.task.Opening?
    ensures Elsewhere(WorkOn(r, cfg, h, choice).task)
  {
    match r.task.message
    case OnControl(m) => ControlElsewhere(r, cfg, m);
    case OnBulk(c) => TakenOrThrown(r, c);
  }

  lemma ControlElsewhere(r: Receiver, cfg: Config, m: Control)
    ensures Elsewhere(OpenControl(r, cfg, m).task)
  {
    if m.FileEnd? {
      FileEndElsewhere(r, m.id, m.sha256);
    } else if m.AllDone? {
      EndsElsewhere(r.(allDoneSeen := true), 0);
    } else {
      ElseKeepsFiles(r, cfg, m);
    }
  }

  lemma WriteElsewhere(r: Receiver, id: nat, payload: Bytes)
    ensures Elsewhere(Write(r, id, payload).task)
  {
    if id in r.files {
      EndsElsewhere(Put(r, id, r.files[id].(disk := r.files[id].disk + payload)), id);
    }
  }

  lemma LastElsewhere(r: Receiver, cfg: Config, h: Hash, choice: Choice)
    requires r.task.Linked? || r.task.DigestingFinal? || r.task.CleaningFinal? || r.task.EndingStream? || r.task.Publishing?
    ensures Elsewhere(WorkOn(r, cfg, h, choice).task)
  {
    var id := r.task.id;
    if r.task.Linked? {
      EndsElsewhere(r.(finals := r.finals - {id}), id);
    } else if r.task.DigestingFinal? {
      CheckElsewhere(r, h, id, choice.ok);
    } else if r.task.CleaningFinal? {
      EndsElsewhere(Unpublish(r, id), id);
    } else {
      EndsElsewhere(r, id);
    }
  }

  lemma CheckElsewhere(r: Receiver, h: Hash, id: nat, ok: bool)
    ensures Elsewhere(CheckFinal(r, h, id, ok).task)
  {
  }

  lemma WorkDisk(r: Receiver, cfg: Config, h: Hash, choice: Choice)
    requires DiskOk(r, h)
    ensures DiskOk(WorkOn(r, cfg, h, choice), h)
  {
    if r.task.Opening? {
      OpeningElsewhere(r, cfg, h, choice);
    } else if r.task.DigestingPart? || r.task.SealingOk? {
      CheckedDisk(r, cfg, h, choice);
    } else if r.task.Linked? || r.task.DigestingFinal? || r.task.CleaningFinal? || r.task.EndingStream? || r.task.Publishing? {
      LastElsewhere(r, cfg, h, choice);
    } else {
      FirstElsewhere(r, cfg, h, choice);
    }
  }

  lemma CheckedDisk(r: Receiver, cfg: Config, h: Hash, choice: Choice)
    requires DiskOk(r, h) && (r.task.DigestingPart? || r.task.SealingOk?)
    ensures DiskOk(WorkOn(r, cfg, h, choice), h)
  {
    EndsElsewhere(r, r.task.id);
  }

  lemma FirstElsewhere(r: Receiver, cfg: Config, h: Hash, choice: Choice)
    requires r.task.Idle? || r.task.Reserving? || r.task.Restarting? || r.task.Writing? || r.task.Replying?
             || r.task.Resolving? || r.task.Throwing?
    ensures Elsewhere(WorkOn(r, cfg, h, choice).task)
  {
    if r.task.Writing? {
      WriteElsewhere(r, r.task.id, r.task.payload);
    }
  }

  lemma UnpublishDisk(r: Receiver, h: Hash, id: nat)
    requires DiskOk(r, h)
    ensures DiskOk(Unpublish(r, id), h)
  {
  }

  /**
   If nobody else changes the receiver's files: at every moment, failed transfers included, every
   final file has the size and the digest the sender announced for it.
  */
  lemma {:induction false} FinalsAsAnnounced(cfg: Config, h: Hash, events: seq<ReceiverEvent>)
    requires forall i :: 0 <= i < |events| ==> Undisturbed(events[i])
    ensures var r := ReceiverRun(cfg, h, events);
            && DiskOk(r, h)
            && forall id :: id in r.finals ==>
                 id in r.files && |r.finals[id]| == r.files[id].size && r.files[id].expectedSha == Some(h(r.finals[id]))
  {
    if events != [] {
      var before := events[..|events| - 1];
      FinalsAsAnnounced(cfg, h, before);
      EveryRunKeeps(cfg, h, before);
      FinalsAppear(ReceiverRun(cfg, h, before), cfg, h, events[|events| - 1]);
      DiskStays(ReceiverRun(cfg, h, before), cfg, h, events[|events| - 1]);
    }
  }
}
