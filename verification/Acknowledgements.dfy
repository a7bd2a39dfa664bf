/**
 What the receiver's acknowledgements stand for, and the all-or-nothing theorem over runs.

 Every step of the receiver is of one of five kinds: silent, a word to the peer, a digest to
 expect, the acknowledgement of a file, or the completion. What acknowledgements mean is
 proved kind by kind.
*/
module Acknowledgements {
  import opened Prelude
  import opened Frames
  import opened SenderMachine
  import opened ReceiverMachine
  import opened AllOrNothing

  // ----- the five kinds of steps -----

  /** One file's state moves on without being finished and without a new expectation. */
  ghost predicate StateQuiet(a: FileState, b: FileState) { b.done == a.done && b.expectedSha == a.expectedSha }

  ghost predicate FilesQuiet(a: map<nat, FileState>, b: map<nat, FileState>) {
    && (forall id :: id in a ==> id in b && StateQuiet(a[id], b[id]))
    && (forall id :: id in b && id !in a ==> !b[id].done && b[id].expectedSha.None?)
  }

  /** The step acknowledges nothing, finishes nothing and expects nothing new. */
  ghost predicate Silent(r: Receiver, t: Receiver) {
    t.verified == r.verified && t.completed == r.completed && t.sent == r.sent && FilesQuiet(r.files, t.files)
  }

  /** A `ready` or an abort goes out. */
  ghost predicate Says(r: Receiver, t: Receiver, m: Control) {
    && (m.Ready? || m.Abort?)
    && t.files == r.files && t.verified == r.verified && t.completed == r.completed && t.sent == r.sent + [m]
  }

  /** A `file-end` is taken: its digest is what the file is checked against from now on. */
  ghost predicate Expects(r: Receiver, t: Receiver, id: nat, sha256: Digest) {
    && id in r.files && r.files[id].expectedSha.None?
    && Silent(r.(files := r.files[id := r.files[id].(expectedSha := Some(sha256))]), t)
  }

  /** A file is acknowledged: its published bytes were read back with the expected digest. */
  ghost predicate Acknowledges(h: Hash, r: Receiver, t: Receiver, id: nat) {
    && id in r.files && !r.files[id].done && id in r.finals && r.files[id].expectedSha == Some(h(r.finals[id]))
    && t.files == r.files[id := r.files[id].(done := true)] && t.verified == r.verified[id := h(r.finals[id])]
    && t.sent == r.sent + [FileOk(id)] && t.completed == r.completed && t.finals == r.finals
  }

  ghost predicate Completes(r: Receiver, t: Receiver) {
    t.files == r.files && t.verified == r.verified && t.completed && t.sent == r.sent + [AllDoneOk]
  }

  ghost predicate OneOfTheKinds(h: Hash, r: Receiver, t: Receiver, task: Task) {
    || Silent(r, t)
    || (task.Replying? && Says(r, t, task.reply))
    || Says(r, t, Abort)
    || (task.Opening? && task.message.OnControl? && task.message.control.FileEnd?
        && Expects(r, t, task.message.control.id, task.message.control.sha256))
    || (task.DigestingFinal? && Acknowledges(h, r, t, task.id))
    || Completes(r, t)
  }

  // ----- silent steps -----

  /** The step changes neither files, acknowledgements nor the completion. */
  predicate SameFiles(r: Receiver, t: Receiver) {
    t.files == r.files && t.verified == r.verified && t.completed == r.completed && t.sent == r.sent
  }

  lemma SameFilesQuiet(r: Receiver, t: Receiver)
    requires SameFiles(r, t)
    ensures Silent(r, t)
  {
  }

  lemma PutQuiet(files: map<nat, FileState>, id: nat, state: FileState)
    requires if id in files then StateQuiet(files[id], state) else !state.done && state.expectedSha.None?
    ensures FilesQuiet(files, files[id := state])
  {
  }

  lemma QuietTwice(a: map<nat, FileState>, b: map<nat, FileState>, c: map<nat, FileState>)
    requires FilesQuiet(a, b) && FilesQuiet(b, c)
    ensures FilesQuiet(a, c)
  {
  }

  lemma FinalizeQuiet(r: Receiver, id: nat)
    ensures Silent(r, Finalize(r, id))
  {
    if id in r.files {
      PutQuiet(r.files, id, r.files[id].(finalizing := true));
    }
  }

  /** Storing a file's state, then finalizing it if it is complete. */
  lemma StoreQuiet(r: Receiver, id: nat, state: FileState)
    requires id in r.files && StateQuiet(r.files[id], state)
    ensures Silent(r, Finalize(Put(r, id, state), id))
  {
    PutQuiet(r.files, id, state);
    FinalizeQuiet(Put(r, id, state), id);
    QuietTwice(r.files, Put(r, id, state).files, Finalize(Put(r, id, state), id).files);
  }

  lemma GiveUpQuiet(r: Receiver, id: nat)
    ensures Silent(r, GiveUp(r, id))
  {
    if id in r.files {
      PutQuiet(r.files, id, r.files[id].(finalizing := false));
    }
  }

  lemma UnpublishQuiet(r: Receiver, id: nat)
    ensures Silent(r, Unpublish(r, id))
  {
    if id in r.files {
      PutQuiet(r.files, id, r.files[id].(published := false));
    }
  }

  // ----- opening a message -----

  lemma OpenManifestSame(r: Receiver, cfg: Config, entries: seq<Entry>)
    ensures SameFiles(r, OpenManifest(r, cfg, entries))
  {
  }

  lemma OpenFileBeginSame(r: Receiver, id: nat, name: int, size: nat)
    ensures SameFiles(r, OpenFileBegin(r, id, name, size))
  {
  }

  lemma OpenRestartSame(r: Receiver, id: nat)
    ensures SameFiles(r, OpenRestart(r, id))
  {
  }

  lemma OpenAllDoneSame(r: Receiver)
    ensures SameFiles(r, OpenAllDone(r))
  {
  }

  lemma OpenOtherSame(r: Receiver, cfg: Config, m: Control)
    requires !m.FileEnd?
    ensures SameFiles(r, OpenControl(r, cfg, m))
  {
    match m
    case Manifest(entries) => OpenManifestSame(r, cfg, entries);
    case FileBegin(id, name, size) => OpenFileBeginSame(r, id, name, size);
    case Restart(id) => OpenRestartSame(r, id);
    case AllDone => OpenAllDoneSame(r);
    case _ =>
  }

  lemma OpenFileEndExpects(r: Receiver, id: nat, sha256: Digest)
    ensures OpenFileEnd(r, id, sha256) == Goto(r, Throwing) || Expects(r, OpenFileEnd(r, id, sha256), id, sha256)
  {
    if id in r.files && r.files[id].expectedSha.None? {
      FinalizeQuiet(Put(r, id, r.files[id].(expectedSha := Some(sha256))), id);
    }
  }

  lemma OpenChunkQuiet(r: Receiver, c: Chunk)
    ensures Silent(r, OpenChunk(r, c))
  {
    var t := OpenChunk(r, c);
    if t == Goto(r, Throwing) {
      SameFilesQuiet(r, t);
    } else {
      PutQuiet(r.files, c.id,
               r.files[c.id].(expectedSeq := r.files[c.id].expectedSeq + 1, hashed := r.files[c.id].hashed + c.payload));
    }
  }

  lemma OpeningKind(r: Receiver, cfg: Config, h: Hash, choice: Choice)
    requires r.task.Opening?
    ensures OneOfTheKinds(h, r, WorkOn(r, cfg, h, choice), r.task)
  {
    SameFilesQuiet(r, Goto(r, Throwing));
    match r.task.message
    case OnBulk(c) => OpenChunkQuiet(r, c);
    case OnControl(m) =>
      if m.FileEnd? {
        OpenFileEndExpects(r, m.id, m.sha256);
      } else {
        OpenOtherSame(r, cfg, m);
        SameFilesQuiet(r, OpenControl(r, cfg, m));
      }
  }

  // ----- the other tasks -----

  lemma ReserveQuiet(r: Receiver, cfg: Config, h: Hash, id: nat, size: nat, partial: Bytes)
    requires id !in r.files
    ensures Silent(r, Reserve(r, cfg, h, id, size, partial))
  {
    PutQuiet(r.files, id, Reserve(r, cfg, h, id, size, partial).files[id]);
  }

  lemma RestartQuiet(r: Receiver, id: nat)
    ensures Silent(r, RestartFile(r, id))
  {
    if id in r.files {
      PutQuiet(r.files, id, RestartFile(r, id).files[id]);
    } else {
      SameFilesQuiet(r, Goto(r, Throwing));
    }
  }

  lemma WriteQuiet(r: Receiver, id: nat, payload: Bytes)
    ensures Silent(r, Write(r, id, payload))
  {
    if id in r.files {
      StoreQuiet(r, id, r.files[id].(disk := r.files[id].disk + payload));
    } else {
      SameFilesQuiet(r, Goto(r, Throwing));
    }
  }

  lemma FillingQuiet(r: Receiver, cfg: Config, h: Hash, choice: Choice)
    requires TaskOk(r) && (r.task.Reserving? || r.task.Restarting? || r.task.Writing?)
    ensures Silent(r, WorkOn(r, cfg, h, choice))
  {
    SameFilesQuiet(r, Goto(r, Throwing));
    if r.task.Reserving? {
      ReserveQuiet(r, cfg, h, r.task.id, r.task.size, choice.partial);
    } else if r.task.Restarting? {
      RestartQuiet(r, r.task.id);
    } else {
      WriteQuiet(r, r.task.id, r.task.payload);
    }
  }

  lemma ChecksQuiet(r: Receiver, h: Hash, id: nat)
    ensures Silent(r, CheckReceived(r, h, id)) && Silent(r, CheckPart(r, h, id)) && Silent(r, Publish(r, id))
  {
    assert FilesQuiet(r.files, r.files);
    GiveUpQuiet(r, id);
  }

  lemma PublishReturnsQuiet(r: Receiver, id: nat, ok: bool)
    ensures Silent(r, PublishReturns(r, id, ok))
  {
    assert FilesQuiet(r.files, r.files);
    GiveUpQuiet(r.(finals := r.finals - {id}), id);
    if id in r.files {
      PutQuiet(r.files, id, r.files[id].(published := true));
    }
  }

  lemma CleanFinalQuiet(r: Receiver, id: nat)
    ensures Silent(r, GiveUp(Unpublish(r, id), id))
  {
    UnpublishQuiet(r, id);
    GiveUpQuiet(Unpublish(r, id), id);
    QuietTwice(r.files, Unpublish(r, id).files, GiveUp(Unpublish(r, id), id).files);
  }

  lemma FinalizingQuiet(r: Receiver, cfg: Config, h: Hash, choice: Choice)
    requires r.task.EndingStream? || r.task.DigestingPart? || r.task.SealingOk? || r.task.Publishing?
             || r.task.Linked? || r.task.CleaningFinal?
    ensures Silent(r, WorkOn(r, cfg, h, choice))
  {
    var id := r.task.id;
    GiveUpQuiet(r, id);
    if r.task.Linked? {
      PublishReturnsQuiet(r, id, choice.ok);
    } else if r.task.CleaningFinal? {
      CleanFinalQuiet(r, id);
    } else if r.task.SealingOk? {
      SameFilesQuiet(r, Goto(r, Publishing(id)));
    } else {
      ChecksQuiet(r, h, id);
    }
  }

  /** The only step that acknowledges a file. */
  lemma CheckFinalKind(r: Receiver, h: Hash, id: nat, ok: bool)
    requires TaskOk(r) && r.task == DigestingFinal(id)
    ensures Silent(r, CheckFinal(r, h, id, ok)) || Acknowledges(h, r, CheckFinal(r, h, id, ok), id)
  {
    GiveUpQuiet(r, id);
    SameFilesQuiet(r, Goto(r, CleaningFinal(id)));
  }

  lemma TalkingKind(r: Receiver, cfg: Config, h: Hash, choice: Choice)
    requires r.task.Replying? || r.task.Resolving? || r.task.Throwing? || r.task.Idle?
    requires TaskOk(r)
    ensures OneOfTheKinds(h, r, WorkOn(r, cfg, h, choice), r.task)
  {
    SameFilesQuiet(r, Goto(r, Throwing));
    SameFilesQuiet(r, Caught(r));
    SameFilesQuiet(r, r);
  }

  /** Every step of the task in flight is of one of the kinds. */
  lemma WorkKind(r: Receiver, cfg: Config, h: Hash, choice: Choice)
    requires TaskOk(r)
    ensures OneOfTheKinds(h, r, WorkOn(r, cfg, h, choice), r.task)
  {
    match r.task
    case Opening(_) => OpeningKind(r, cfg, h, choice);
    case Reserving(_, _) => FillingQuiet(r, cfg, h, choice);
    case Restarting(_) => FillingQuiet(r, cfg, h, choice);
    case Writing(_, _) => FillingQuiet(r, cfg, h, choice);
    case DigestingFinal(id) => CheckFinalKind(r, h, id, choice.ok);
    case Idle => TalkingKind(r, cfg, h, choice);
    case Replying(_) => TalkingKind(r, cfg, h, choice);
    case Resolving => TalkingKind(r, cfg, h, choice);
    case Throwing => TalkingKind(r, cfg, h, choice);
    case _ => FinalizingQuiet(r, cfg, h, choice);
  }

  lemma CleanupKind(r: Receiver, cfg: Config, h: Hash, e: ReceiverEvent)
    requires e.VisitFile? || e.FinishRemoval? || e.FinishCleanup?
    ensures Silent(r, ReceiverStep(r, cfg, h, e))
  {
    if e.FinishRemoval? && r.cleanup.Removing? {
      UnpublishQuiet(r, r.cleanup.id);
    } else if e.VisitFile? {
      VisitSame(r, cfg, h, e.id);
      SameFilesQuiet(r, ReceiverStep(r, cfg, h, e));
    } else {
      SameFilesQuiet(r, ReceiverStep(r, cfg, h, e));
    }
  }

  lemma VisitSame(r: Receiver, cfg: Config, h: Hash, id: nat)
    ensures SameFiles(r, ReceiverStep(r, cfg, h, VisitFile(id)))
  {
  }

  lemma StartCleanupKind(r: Receiver, cfg: Config, h: Hash)
    ensures var t := ReceiverStep(r, cfg, h, StartCleanup); Silent(r, t) || Says(r, t, Abort)
  {
    var t := ReceiverStep(r, cfg, h, StartCleanup);
    if t.sent == r.sent {
      SameFilesQuiet(r, t);
    }
  }

  lemma StepKind(r: Receiver, cfg: Config, h: Hash, e: ReceiverEvent)
    requires TaskOk(r)
    ensures OneOfTheKinds(h, r, ReceiverStep(r, cfg, h, e), r.task)
    ensures !e.Work? ==> Silent(r, ReceiverStep(r, cfg, h, e)) || Says(r, ReceiverStep(r, cfg, h, e), Abort)
  {
    if e.Work? {
      WorkKind(r, cfg, h, e.choice);
    } else if e.StartCleanup? {
      StartCleanupKind(r, cfg, h);
    } else if e.TamperPart? && e.id in r.files {
      PutQuiet(r.files, e.id, r.files[e.id].(disk := e.content));
    } else if e.VisitFile? || e.FinishRemoval? || e.FinishCleanup? {
      CleanupKind(r, cfg, h, e);
    } else {
      SameFilesQuiet(r, ReceiverStep(r, cfg, h, e));
    }
  }

  // ----- what an acknowledgement means -----

  /** A done file's published bytes had the digest the sender announced when they were read back. */
  ghost predicate DoneVerified(r: Receiver) {
    forall id :: id in r.files && r.files[id].done ==>
      id in r.verified && Some(r.verified[id]) == r.files[id].expectedSha
  }

  /** An acknowledgement is sent only for a done file, the last one only by a completed transfer. */
  ghost predicate SentOnlyDone(r: Receiver) {
    && (forall id :: FileOk(id) in r.sent ==> id in r.files && r.files[id].done)
    && (AllDoneOk in r.sent ==> r.completed)
  }

  ghost predicate AckOk(r: Receiver) { DoneVerified(r) && SentOnlyDone(r) }

  lemma SilentKeeps(r: Receiver, t: Receiver)
    requires AckOk(r) && Silent(r, t)
    ensures AckOk(t)
  {
    assert forall id :: id in r.files ==> StateQuiet(r.files[id], t.files[id]);
  }

  lemma SaysKeeps(r: Receiver, t: Receiver, m: Control)
    requires AckOk(r) && Says(r, t, m)
    ensures AckOk(t)
  {
    assert forall x :: x in t.sent ==> x in r.sent || x == m;
  }

  lemma ExpectsKeeps(r: Receiver, t: Receiver, id: nat, sha256: Digest)
    requires AckOk(r) && Expects(r, t, id, sha256)
    ensures AckOk(t)
  {
    var s := r.(files := r.files[id := r.files[id].(expectedSha := Some(sha256))]);
    assert AckOk(s);
    SilentKeeps(s, t);
  }

  lemma AcknowledgesKeeps(h: Hash, r: Receiver, t: Receiver, id: nat)
    requires AckOk(r) && Acknowledges(h, r, t, id)
    ensures AckOk(t)
  {
    assert forall m :: m in t.sent ==> m in r.sent || m == FileOk(id);
  }

  lemma CompletesKeeps(r: Receiver, t: Receiver)
    requires AckOk(r) && Completes(r, t)
    ensures AckOk(t)
  {
    assert forall m :: m in t.sent ==> m in r.sent || m == AllDoneOk;
  }

  lemma KindKeeps(h: Hash, r: Receiver, t: Receiver, task: Task)
    requires AckOk(r) && OneOfTheKinds(h, r, t, task)
    ensures AckOk(t)
  {
    if Silent(r, t) {
      SilentKeeps(r, t);
    } else if Says(r, t, Abort) {
      SaysKeeps(r, t, Abort);
    } else if Completes(r, t) {
      CompletesKeeps(r, t);
    } else if task.Replying? {
      SaysKeeps(r, t, task.reply);
    } else if task.DigestingFinal? {
      AcknowledgesKeeps(h, r, t, task.id);
    } else {
      ExpectsKeeps(r, t, task.message.control.id, task.message.control.sha256);
    }
  }

  lemma VerifiedImpliesExpects(r: Receiver)
    requires DoneVerified(r)
    ensures DoneExpects(r)
  {
  }

  /** One step keeps both invariants. */
  lemma BothKept(r: Receiver, cfg: Config, h: Hash, e: ReceiverEvent)
    requires Inv(r) && AckOk(r)
    ensures Inv(ReceiverStep(r, cfg, h, e)) && AckOk(ReceiverStep(r, cfg, h, e))
  {
    VerifiedImpliesExpects(r);
    StepKeeps(r, cfg, h, e);
    StepKind(r, cfg, h, e);
    KindKeeps(h, r, ReceiverStep(r, cfg, h, e), r.task);
  }

  lemma {:induction false} EveryRunKeeps(cfg: Config, h: Hash, events: seq<ReceiverEvent>)
    ensures Inv(ReceiverRun(cfg, h, events)) && AckOk(ReceiverRun(cfg, h, events))
  {
    if events != [] {
      EveryRunKeeps(cfg, h, events[..|events| - 1]);
      BothKept(ReceiverRun(cfg, h, events[..|events| - 1]), cfg, h, events[|events| - 1]);
    }
  }

  // ----- the theorems -----

  /**
   All or nothing. Whatever a peer sends and whenever the transfer fails: it never both failed
   and completed, and once the task in flight and the cleanup loop are over, it completed with
   every manifest file published, or it failed and no final file is left.
  */
  lemma AllOrNothingTheorem(cfg: Config, h: Hash, events: seq<ReceiverEvent>)
    ensures var r := ReceiverRun(cfg, h, events);
            && !(r.failed && r.completed)
            && (r.task.Idle? && r.cleanup.Finished? ==>
                  if r.completed then
                    r.manifest.Some? && r.finals.Keys == Ids(r.manifest.value)
                  else
                    r.failed && r.finals == map[])
  {
    EveryRunKeeps(cfg, h, events);
    var r := ReceiverRun(cfg, h, events);
    if r.task.Idle? && r.cleanup.Finished? {
      if r.completed {
        CompletedPublished(r);
      } else {
        assert r.finals.Keys == {};
      }
    }
  }

  lemma CompletedPublished(r: Receiver)
    requires Inv(r) && r.completed
    ensures r.manifest.Some? && r.finals.Keys == Ids(r.manifest.value) == r.files.Keys
  {
    assert forall id :: id in r.files ==> r.files[id].done && r.files[id].published;
    assert r.finals.Keys == r.files.Keys;
  }

  /** A completed transfer stays completed, and keeps every file it published. */
  lemma CompletedForEver(r: Receiver, cfg: Config, h: Hash, e: ReceiverEvent)
    requires Inv(r) && r.completed
    ensures var t := ReceiverStep(r, cfg, h, e);
            t.completed && t.manifest == r.manifest && t.files.Keys == r.files.Keys && t.finals.Keys == r.finals.Keys
  {
  }

  /**
   An acknowledgement on the wire means what it says: the file was published, and its published
   bytes had the announced digest; the last acknowledgement means all of that for every file.
  */
  lemma AcknowledgementTheorem(cfg: Config, h: Hash, events: seq<ReceiverEvent>)
    ensures var r := ReceiverRun(cfg, h, events);
            && (forall id :: FileOk(id) in r.sent ==>
                  && id in r.files && id in r.verified
                  && Some(r.verified[id]) == r.files[id].expectedSha
                  && (!r.failed ==> id in r.finals))
            && (AllDoneOk in r.sent ==>
                  && r.completed && r.manifest.Some?
                  && r.finals.Keys == Ids(r.manifest.value)
                  && forall id :: id in r.finals ==>
                       id in r.files && id in r.verified && Some(r.verified[id]) == r.files[id].expectedSha)
  {
    EveryRunKeeps(cfg, h, events);
    if ReceiverRun(cfg, h, events).completed {
      CompletedPublished(ReceiverRun(cfg, h, events));
    }
  }
}
