/**
 All or nothing on the receiver's side, for every peer and every moment of failure: when the
 work in flight and the cleanup are over, either the transfer completed and every manifest
 file is published, or it failed and none of its final files is left.
*/
module AllOrNothing {
  import opened Prelude
  import opened Frames
  import opened SenderMachine
  import opened ReceiverMachine

  // ----- the invariant -----

  /** Which file the task in flight is about, and what is known of it. */
  ghost predicate TaskOk(r: Receiver) {
    match r.task
    case Idle => true
    case Opening(_) => true
    case Reserving(id, _) => id !in r.files && r.manifest.Some? && id in Ids(r.manifest.value)
    case Restarting(id) => id in r.files && !r.files[id].done && !r.files[id].published
    case Replying(reply) => reply.Ready?
    case Writing(id, _) => id in r.files && !r.files[id].done && !r.files[id].published
    case EndingStream(id) => id in r.files && !r.files[id].done && !r.files[id].published
    case DigestingPart(id) => id in r.files && !r.files[id].done && !r.files[id].published
    case SealingOk(id) => id in r.files && !r.files[id].done && !r.files[id].published
    case Publishing(id) => id in r.files && !r.files[id].done && !r.files[id].published
    case Linked(id) => id in r.files && !r.files[id].done && !r.files[id].published && id in r.finals
    case DigestingFinal(id) => id in r.files && !r.files[id].done && (r.files[id].published || r.failed)
    case CleaningFinal(id) => id in r.files && !r.files[id].done
    case Resolving => r.allDoneSeen && AllFilesDone(r)
    case Throwing => true
  }

  /** A final file is remembered, or is being linked right now; what is remembered exists. */
  ghost predicate FinalsKnown(r: Receiver) {
    && (forall id :: id in r.finals ==> id in r.files && (r.files[id].published || r.task == Linked(id)))
    && (forall id :: id in r.files && r.files[id].published ==> id in r.finals)
  }

  /** While nothing failed, done files stay published, and an unfinished published file is the task's. */
  ghost predicate DonePublished(r: Receiver) {
    !r.failed ==> forall id :: id in r.files ==>
      && (r.files[id].done ==> r.files[id].published)
      && (r.files[id].published && !r.files[id].done ==>
            r.task == DigestingFinal(id) || r.task == CleaningFinal(id) || r.task.Throwing?)
  }

  ghost predicate OnlyExpectedFiles(r: Receiver) {
    && (r.manifest.None? ==> r.files == map[])
    && (r.manifest.Some? ==> r.files.Keys <= Ids(r.manifest.value))
    && (r.allDoneSeen ==> r.manifest.Some? && r.files.Keys == Ids(r.manifest.value))
  }

  ghost predicate CompletedOk(r: Receiver) {
    r.completed ==> !r.failed && r.task.Idle? && r.allDoneSeen && AllFilesDone(r)
  }

  function Visited(r: Receiver): set<nat> {
    match r.cleanup
    case NotStarted => {}
    case Visiting(v) => v
    case Removing(_, v) => v
    case Finished(v) => v
  }

  /** A visited file of a failed transfer has no final file, unless the task in flight is about to remove it. */
  ghost predicate CleanupOk(r: Receiver) {
    && (!r.cleanup.NotStarted? ==> Stopped(r))
    && (r.cleanup.Removing? ==> r.failed && r.cleanup.id in r.files)
    && (r.failed ==> forall id :: id in r.finals && id in Visited(r) ==>
          r.task == Linked(id) || r.task == CleaningFinal(id))
    && (r.failed && r.cleanup.Finished? ==>
          r.finals.Keys <= Visited(r) && (r.task.Publishing? ==> r.task.id in Visited(r)))
  }

  ghost predicate Inv(r: Receiver) {
    TaskOk(r) && FinalsKnown(r) && DonePublished(r) && OnlyExpectedFiles(r) && CompletedOk(r) && CleanupOk(r)
  }

  // ----- steps of the task -----

  lemma SubsetOfSameSize(a: set<nat>, b: set<nat>)
    requires a <= b && |a| == |b|
    ensures a == b
  {
    if a != b {
      var x :| x in b && x !in a;
      assert a <= b - {x};
      SizeOfSubset(a, b - {x});
    }
  }

  lemma {:induction false} SizeOfSubset(a: set<nat>, b: set<nat>)
    requires a <= b
    ensures |a| <= |b|
    decreases a
  {
    if a != {} {
      var x :| x in a;
      SizeOfSubset(a - {x}, b - {x});
    }
  }

  lemma {:induction false} FoundIsListed(entries: seq<Entry>, id: nat)
    requires Find(entries, id).Some?
    ensures id in Ids(entries)
  {
    var n := |entries| - 1;
    if entries[n].id != id {
      FoundIsListed(entries[..n], id);
      var i :| 0 <= i < n && entries[..n][i].id == id;
      assert entries[i].id == id;
    }
  }

  /** Tasks that stand between a final file's appearance and its being kept or removed. */
  predicate HandlesFinal(task: Task) { task.Linked? || task.DigestingFinal? || task.CleaningFinal? }

  /** Moving on from any task that handles no final file. */
  lemma GotoKeeps(r: Receiver, task: Task)
    requires Inv(r) && !r.completed
    requires !HandlesFinal(r.task) && !r.task.Throwing? && (task.Publishing? ==> !r.failed)
    requires TaskOk(Goto(r, task))
    ensures Inv(Goto(r, task))
  {
    var t := Goto(r, task);
    assert FinalsKnown(t);
    assert DonePublished(t);
    assert CleanupOk(t);
  }

  ghost predicate SameFate(a: FileState, b: FileState) { a.published == b.published && a.done == b.done }

  /** Changing what a file holds or expects, not whether it is published or done. */
  lemma PutKeeps(r: Receiver, id: nat, state: FileState)
    requires Inv(r) && id in r.files && SameFate(state, r.files[id])
    ensures Inv(Put(r, id, state))
  {
    var t := Put(r, id, state);
    assert t.files.Keys == r.files.Keys;
    assert forall x :: x in r.files ==> x in t.files && SameFate(t.files[x], r.files[x]);
    assert TaskOk(t);
    assert FinalsKnown(t);
    assert DonePublished(t);
  }

  lemma ThrowKeeps(r: Receiver)
    requires Inv(r) && !r.completed && !HandlesFinal(r.task) && !r.task.Throwing?
    ensures Inv(Goto(r, Throwing))
  {
    GotoKeeps(r, Throwing);
  }

  lemma ResolveKeeps(r: Receiver)
    requires Inv(r) && !r.completed && !HandlesFinal(r.task) && !r.task.Throwing?
    ensures Inv(ResolveDone(r))
  {
    GotoKeeps(r, Idle);
    if r.allDoneSeen && AllFilesDone(r) {
      GotoKeeps(r, Resolving);
    }
  }

  lemma FinalizeKeeps(r: Receiver, id: nat)
    requires Inv(r) && !r.completed && id in r.files && !r.files[id].published
    requires r.task.Opening? || r.task.Writing?
    ensures Inv(Finalize(r, id))
  {
    ResolveKeeps(r);
    PutKeeps(r, id, r.files[id].(finalizing := true));
    if !r.files[id].done {
      GotoKeeps(Put(r, id, r.files[id].(finalizing := true)), EndingStream(id));
    }
  }

  lemma OpenManifestKeeps(r: Receiver, cfg: Config, entries: seq<Entry>)
    requires Inv(r) && !Stopped(r) && r.task.Opening?
    ensures Inv(OpenManifest(r, cfg, entries))
  {
    ThrowKeeps(r);
    if r.manifest.None? {
      var stored := r.(manifest := Some(entries));
      assert OnlyExpectedFiles(stored);
      ThrowKeeps(stored);
      GotoKeeps(stored, Idle);
    }
  }

  lemma OpenAllDoneKeeps(r: Receiver)
    requires Inv(r) && !Stopped(r) && r.task.Opening?
    ensures Inv(OpenAllDone(r))
  {
    ThrowKeeps(r);
    if r.manifest.Some? && |r.files| == |Ids(r.manifest.value)| {
      assert |r.files| == |r.files.Keys|;
      SubsetOfSameSize(r.files.Keys, Ids(r.manifest.value));
      var seen := r.(allDoneSeen := true);
      assert Inv(seen);
      ResolveKeeps(seen);
    }
  }

  lemma OpenFileEndKeeps(r: Receiver, id: nat, sha256: Digest)
    requires Inv(r) && !Stopped(r) && r.task.Opening?
    requires id in r.files ==> (r.files[id].done ==> r.files[id].expectedSha.Some?)
    ensures Inv(OpenFileEnd(r, id, sha256))
  {
    ThrowKeeps(r);
    if id in r.files && r.files[id].expectedSha.None? {
      var state := r.files[id].(expectedSha := Some(sha256));
      PutKeeps(r, id, state);
      FinalizeKeeps(Put(r, id, state), id);
    }
  }

  lemma OpenControlKeeps(r: Receiver, cfg: Config, m: Control)
    requires Inv(r) && !Stopped(r) && r.task.Opening?
    requires forall id :: id in r.files && r.files[id].done ==> r.files[id].expectedSha.Some?
    ensures Inv(OpenControl(r, cfg, m))
  {
    ThrowKeeps(r);
    match m
    case Manifest(entries) => OpenManifestKeeps(r, cfg, entries);
    case FileBegin(id, name, size) =>
      if r.manifest.Some? && id !in r.files && Find(r.manifest.value, id).Some? {
        FoundIsListed(r.manifest.value, id);
        GotoKeeps(r, Reserving(id, size));
      }
    case Restart(id) =>
      if id in r.files && !r.files[id].done {
        GotoKeeps(r, Restarting(id));
      }
    case FileEnd(id, sha256) => OpenFileEndKeeps(r, id, sha256);
    case AllDone => OpenAllDoneKeeps(r);
    case _ =>
  }

  lemma AcceptChunkKeeps(r: Receiver, id: nat, state: FileState, payload: Bytes)
    requires Inv(r) && !Stopped(r) && r.task.Opening?
    requires id in r.files && SameFate(state, r.files[id]) && !state.done
    ensures Inv(Goto(Put(r, id, state), Writing(id, payload)))
  {
    PutKeeps(r, id, state);
    GotoKeeps(Put(r, id, state), Writing(id, payload));
  }

  lemma OpenChunkKeeps(r: Receiver, c: Chunk)
    requires Inv(r) && !Stopped(r) && r.task.Opening?
    ensures Inv(OpenChunk(r, c))
  {
    ThrowKeeps(r);
    if c.id in r.files && !r.files[c.id].done {
      AcceptChunkKeeps(r, c.id, WithChunk(r.files[c.id], c.payload), c.payload);
    }
    TakenOrThrown(r, c);
  }

  function WithChunk(state: FileState, payload: Bytes): FileState {
    state.(expectedSeq := state.expectedSeq + 1, hashed := state.hashed + payload)
  }

  lemma TakenOrThrown(r: Receiver, c: Chunk)
    ensures OpenChunk(r, c) == Goto(r, Throwing)
            || (c.id in r.files && !r.files[c.id].done
                && OpenChunk(r, c) == Goto(Put(r, c.id, WithChunk(r.files[c.id], c.payload)), Writing(c.id, c.payload)))
  {
  }

  lemma ReserveKeeps(r: Receiver, cfg: Config, h: Hash, id: nat, size: nat, partial: Bytes)
    requires Inv(r) && r.task == Reserving(id, size)
    ensures Inv(Reserve(r, cfg, h, id, size, partial))
  {
    var t := Reserve(r, cfg, h, id, size, partial);
    assert t.files.Keys == r.files.Keys + {id};
    assert OnlyExpectedFiles(t);
    assert FinalsKnown(t);
    assert CleanupOk(t);
  }

  lemma RestartKeeps(r: Receiver, id: nat)
    requires Inv(r) && r.task == Restarting(id)
    ensures Inv(RestartFile(r, id))
  {
    var state := r.files[id].(hashed := [], disk := [], expectedSeq := 0);
    PutKeeps(r, id, state);
    GotoKeeps(Put(r, id, state), Replying(Ready(id, 0, None)));
  }

  lemma WriteKeeps(r: Receiver, id: nat, payload: Bytes)
    requires Inv(r) && r.task == Writing(id, payload)
    ensures Inv(Write(r, id, payload))
  {
    var state := r.files[id].(disk := r.files[id].disk + payload);
    PutKeeps(r, id, state);
    FinalizeKeeps(Put(r, id, state), id);
  }

  /** A rejected finalization, before there is a final file. */
  lemma GiveUpKeeps(r: Receiver, id: nat)
    requires Inv(r) && !r.completed && id in r.files && !HandlesFinal(r.task) && !r.task.Throwing?
    ensures Inv(GiveUp(r, id))
  {
    PutKeeps(r, id, r.files[id].(finalizing := false));
    ThrowKeeps(Put(r, id, r.files[id].(finalizing := false)));
  }

  lemma ChecksKeep(r: Receiver, h: Hash)
    requires Inv(r)
    ensures r.task.EndingStream? ==> Inv(CheckReceived(r, h, r.task.id)) && Inv(GiveUp(r, r.task.id))
    ensures r.task.DigestingPart? ==> Inv(CheckPart(r, h, r.task.id)) && Inv(GiveUp(r, r.task.id))
    ensures r.task.SealingOk? ==> Inv(GiveUp(r, r.task.id)) && (!Stopped(r) ==> Inv(Goto(r, Publishing(r.task.id))))
  {
    if r.task.EndingStream? {
      GiveUpKeeps(r, r.task.id);
      GotoKeeps(r, DigestingPart(r.task.id));
    } else if r.task.DigestingPart? {
      GiveUpKeeps(r, r.task.id);
      GotoKeeps(r, SealingOk(r.task.id));
    } else if r.task.SealingOk? {
      GiveUpKeeps(r, r.task.id);
      if !Stopped(r) {
        GotoKeeps(r, Publishing(r.task.id));
      }
    }
  }

  lemma PublishKeeps(r: Receiver, id: nat)
    requires Inv(r) && r.task == Publishing(id)
    ensures Inv(Goto(r.(finals := r.finals[id := r.files[id].disk]), Linked(id)))
  {
    var t := Goto(r.(finals := r.finals[id := r.files[id].disk]), Linked(id));
    assert t.finals.Keys == r.finals.Keys + {id};
    assert TaskOk(t);
    assert FinalsKnown(t);
    assert DonePublished(t);
    assert CleanupOk(t);
  }

  lemma PublishFailsKeeps(r: Receiver, id: nat)
    requires Inv(r) && r.task == Linked(id)
    ensures Inv(PublishReturns(r, id, false))
  {
    PublishFailsKnown(r, id);
    var t := PublishReturns(r, id, false);
    assert t.files.Keys == r.files.Keys;
    assert CleanupOk(t);
  }

  lemma PublishFailsKnown(r: Receiver, id: nat)
    requires Inv(r) && r.task == Linked(id)
    ensures FinalsKnown(PublishReturns(r, id, false)) && DonePublished(PublishReturns(r, id, false))
  {
  }

  /** What is just published is remembered, and after a failure it is removed next. */
  lemma PublishReturnsKeeps(r: Receiver, id: nat)
    requires Inv(r) && r.task == Linked(id)
    ensures var t := PublishReturns(r, id, true);
            && Inv(t) && t.files[id].published && id in t.finals
            && (r.failed ==> t.task == CleaningFinal(id) && id !in Unpublish(t, id).finals)
  {
    var t := PublishReturns(r, id, true);
    assert t.files.Keys == r.files.Keys;
    assert FinalsKnown(t);
    assert DonePublished(t);
    assert CleanupOk(t);
  }

  /** Giving up at the last check leaves the final file to the cleanup loop. */
  lemma GiveUpFinalKeeps(r: Receiver, id: nat)
    requires Inv(r) && r.task == DigestingFinal(id)
    ensures Inv(GiveUp(r, id))
  {
    GiveUpFinalKnown(r, id);
    var t := GiveUp(r, id);
    assert t.files.Keys == r.files.Keys;
    assert CleanupOk(t);
  }

  lemma GiveUpFinalKnown(r: Receiver, id: nat)
    requires Inv(r) && r.task == DigestingFinal(id)
    ensures FinalsKnown(GiveUp(r, id)) && DonePublished(GiveUp(r, id))
  {
  }

  /** The file is done, and nothing is said about it yet. */
  lemma DoneFinalsKnown(r: Receiver, id: nat)
    requires Inv(r) && r.task == DigestingFinal(id) && !r.failed
    ensures FinalsKnown(Goto(Put(r, id, r.files[id].(done := true)), Idle))
    ensures DonePublished(Goto(Put(r, id, r.files[id].(done := true)), Idle))
  {
  }

  lemma DoneRest(r: Receiver, id: nat)
    requires Inv(r) && r.task == DigestingFinal(id) && !r.failed
    ensures var t := Goto(Put(r, id, r.files[id].(done := true)), Idle);
            TaskOk(t) && OnlyExpectedFiles(t) && CompletedOk(t) && CleanupOk(t)
  {
    assert Put(r, id, r.files[id].(done := true)).files.Keys == r.files.Keys;
  }

  /** What was sent and verified is no part of the invariant. */
  lemma WordsKeep(r: Receiver, sent: seq<Control>, verified: map<nat, Digest>)
    requires Inv(r)
    ensures Inv(r.(sent := sent, verified := verified))
  {
  }

  lemma DoneKeeps(r: Receiver, id: nat, sent: seq<Control>, verified: map<nat, Digest>)
    requires Inv(r) && r.task == DigestingFinal(id) && !r.failed
    ensures Inv(ResolveDone(Put(r, id, r.files[id].(done := true)).(sent := sent, verified := verified)))
  {
    var t := Goto(Put(r, id, r.files[id].(done := true)), Idle);
    DoneFinalsKnown(r, id);
    DoneRest(r, id);
    WordsKeep(t, sent, verified);
    ResolveKeeps(t.(sent := sent, verified := verified));
  }

  lemma ToCleaningKeeps(r: Receiver, id: nat)
    requires Inv(r) && r.task == DigestingFinal(id)
    ensures Inv(Goto(r, CleaningFinal(id)))
  {
    var t := Goto(r, CleaningFinal(id));
    assert FinalsKnown(t);
    assert DonePublished(t);
    assert CleanupOk(t);
  }

  lemma CheckFinalKeeps(r: Receiver, h: Hash, id: nat, ok: bool)
    requires Inv(r) && r.task == DigestingFinal(id)
    ensures Inv(CheckFinal(r, h, id, ok))
  {
    GiveUpFinalKeeps(r, id);
    ToCleaningKeeps(r, id);
    if !r.failed && id in r.finals {
      DoneKeeps(r, id, r.sent + [FileOk(id)], r.verified[id := h(r.finals[id])]);
    }
  }

  /** A file without final file and without memory of one. */
  function Forget(r: Receiver, id: nat): Receiver
    requires id in r.files
  {
    Put(r, id, r.files[id].(published := false)).(finals := r.finals - {id})
  }

  lemma UnpublishForgets(r: Receiver, id: nat)
    requires FinalsKnown(r) && id in r.files && !r.task.Linked?
    ensures Unpublish(r, id) == Forget(r, id)
  {
    if !r.files[id].published {
      assert id !in r.finals;
      assert r.finals - {id} == r.finals;
      assert r.files[id := r.files[id].(published := false)] == r.files;
    }
  }

  lemma ForgetKnown(r: Receiver, id: nat)
    requires FinalsKnown(r) && id in r.files && !r.task.Linked?
    ensures FinalsKnown(Forget(r, id))
  {
  }

  lemma ForgetCleaned(r: Receiver, id: nat)
    requires CleanupOk(r) && id in r.files
    ensures CleanupOk(Forget(r, id))
    ensures id !in Forget(r, id).finals
  {
  }

  lemma CleanFinalKeeps(r: Receiver, id: nat)
    requires Inv(r) && r.task == CleaningFinal(id)
    ensures Inv(GiveUp(Unpublish(r, id), id))
  {
    UnpublishForgets(r, id);
    ForgetKnown(r, id);
    ForgetCleaned(r, id);
    GiveUpForgotten(r, Forget(r, id), id);
  }

  lemma GiveUpForgotten(r: Receiver, u: Receiver, id: nat)
    requires Inv(r) && r.task == CleaningFinal(id) && u == Forget(r, id)
    requires FinalsKnown(u) && CleanupOk(u)
    ensures Inv(GiveUp(u, id))
  {
    var t := GiveUp(u, id);
    assert t.files.Keys == r.files.Keys;
    assert FinalsKnown(t);
    assert DonePublished(t);
    assert CleanupOk(t);
  }

  lemma CaughtKeeps(r: Receiver)
    requires Inv(r) && r.task.Throwing?
    ensures Inv(Caught(r))
  {
    var t := Caught(r);
    assert FinalsKnown(t);
    assert CleanupOk(t);
  }

  lemma SendKeeps(r: Receiver)
    requires Inv(r)
    ensures r.task.Replying? ==> Inv(Goto(r, Throwing)) && Inv(SendThen(r, r.task.reply, Goto(r, Idle)))
    ensures r.task.Resolving? ==> Inv(Goto(r, Throwing))
    ensures r.task.Resolving? && !Stopped(r) ==> Inv(SendThen(r, AllDoneOk, Goto(r, Idle).(completed := true)))
  {
    if r.task.Replying? || r.task.Resolving? {
      ThrowKeeps(r);
      GotoKeeps(r, Idle);
    }
  }

  /** What the task machine alone guarantees: an acknowledged file has an expected digest. */
  ghost predicate DoneExpects(r: Receiver) {
    forall id :: id in r.files && r.files[id].done ==> r.files[id].expectedSha.Some?
  }

  lemma HandlerKeeps(r: Receiver, cfg: Config, h: Hash, choice: Choice)
    requires Inv(r) && DoneExpects(r)
    requires r.task.Opening? || r.task.Reserving? || r.task.Restarting? || r.task.Writing?
    ensures Inv(WorkOn(r, cfg, h, choice))
  {
    ThrowKeeps(r);
    match r.task
    case Opening(OnControl(m)) =>
      if !Stopped(r) {
        OpenControlKeeps(r, cfg, m);
      }
    case Opening(OnBulk(c)) =>
      if !Stopped(r) {
        OpenChunkKeeps(r, c);
      }
    case Reserving(id, size) => ReserveKeeps(r, cfg, h, id, size, choice.partial);
    case Restarting(id) => RestartKeeps(r, id);
    case Writing(id, payload) => WriteKeeps(r, id, payload);
  }

  lemma FinalizationKeeps(r: Receiver, cfg: Config, h: Hash, choice: Choice)
    requires Inv(r)
    requires r.task.Publishing? || r.task.Linked? || r.task.DigestingFinal? || r.task.CleaningFinal?
    ensures Inv(WorkOn(r, cfg, h, choice))
  {
    match r.task
    case Publishing(id) =>
      GiveUpKeeps(r, id);
      PublishKeeps(r, id);
    case Linked(id) =>
      PublishFailsKeeps(r, id);
      PublishReturnsKeeps(r, id);
    case DigestingFinal(id) => CheckFinalKeeps(r, h, id, choice.ok);
    case CleaningFinal(id) => CleanFinalKeeps(r, id);
  }

  lemma WorkKeeps(r: Receiver, cfg: Config, h: Hash, choice: Choice)
    requires Inv(r) && DoneExpects(r)
    ensures Inv(WorkOn(r, cfg, h, choice))
  {
    match r.task
    case Idle =>
    case Opening(_) => HandlerKeeps(r, cfg, h, choice);
    case Reserving(_, _) => HandlerKeeps(r, cfg, h, choice);
    case Restarting(_) => HandlerKeeps(r, cfg, h, choice);
    case Writing(_, _) => HandlerKeeps(r, cfg, h, choice);
    case Replying(_) => SendKeeps(r);
    case Resolving => SendKeeps(r);
    case EndingStream(_) => ChecksKeep(r, h);
    case DigestingPart(_) => ChecksKeep(r, h);
    case SealingOk(_) => ChecksKeep(r, h);
    case Throwing => CaughtKeeps(r);
    case _ => FinalizationKeeps(r, cfg, h, choice);
  }

  // ----- cleanup steps -----

  lemma VisitKeeps(r: Receiver, id: nat)
    requires Inv(r) && r.cleanup.Visiting? && id in r.files && id !in r.cleanup.visited
    ensures Inv(Visit(r, id, r.cleanup.visited))
  {
    var t := Visit(r, id, r.cleanup.visited);
    assert CleanupOk(t);
  }

  /** Forgetting a published file of a failed transfer keeps everything. */
  lemma ForgetKeeps(r: Receiver, id: nat)
    requires Inv(r) && r.failed && id in r.files && r.files[id].published
    ensures Inv(Forget(r, id)) && id !in Forget(r, id).finals
  {
    var t := Forget(r, id);
    assert t.files.Keys == r.files.Keys;
    assert forall x :: x in r.files ==> t.files[x].done == r.files[x].done;
    assert TaskOk(t);
    assert FinalsKnown(t);
    assert CleanupOk(t);
  }

  lemma MarkVisitedKeeps(r: Receiver, id: nat)
    requires Inv(r) && r.cleanup.Removing? && (id in r.finals ==> r.task == Linked(id))
    ensures Inv(r.(cleanup := Visiting(r.cleanup.visited + {id})))
  {
    var t := r.(cleanup := Visiting(r.cleanup.visited + {id}));
    assert CleanupOk(t);
  }

  lemma RemovalKeeps(r: Receiver)
    requires Inv(r) && r.cleanup.Removing?
    ensures Inv(Unpublish(r, r.cleanup.id).(cleanup := Visiting(r.cleanup.visited + {r.cleanup.id})))
  {
    var id := r.cleanup.id;
    if r.files[id].published {
      ForgetKeeps(r, id);
      MarkVisitedKeeps(Forget(r, id), id);
    } else {
      MarkVisitedKeeps(r, id);
    }
  }

  lemma FinishKeeps(r: Receiver)
    requires Inv(r) && r.cleanup.Visiting? && r.files.Keys <= r.cleanup.visited
    ensures Inv(r.(cleanup := Finished(r.cleanup.visited)))
  {
    var t := r.(cleanup := Finished(r.cleanup.visited));
    assert CleanupOk(t);
  }

  lemma StartKeeps(r: Receiver, channelOpen: bool, sent: seq<Control>)
    requires Inv(r) && r.cleanup.NotStarted? && Stopped(r)
    ensures Inv(r.(cleanup := Visiting({}), channelOpen := channelOpen, sent := sent))
  {
    var t := r.(cleanup := Visiting({}), channelOpen := channelOpen, sent := sent);
    assert CleanupOk(t);
  }

  lemma FailsKeeps(r: Receiver)
    requires Inv(r) && !Stopped(r)
    ensures Inv(r.(failed := true))
  {
    var t := r.(failed := true);
    assert CleanupOk(t);
  }

  lemma TamperFinalKeeps(r: Receiver, id: nat, content: Bytes)
    requires Inv(r) && id in r.finals
    ensures Inv(r.(finals := r.finals[id := content]))
  {
    var t := r.(finals := r.finals[id := content]);
    assert t.finals.Keys == r.finals.Keys;
    assert TaskOk(t);
    assert FinalsKnown(t);
    assert CleanupOk(t);
  }

  /** Every step of the receiver, of its surroundings and of its cleanup keeps the invariant. */
  lemma StepKeeps(r: Receiver, cfg: Config, h: Hash, e: ReceiverEvent)
    requires Inv(r) && DoneExpects(r)
    ensures Inv(ReceiverStep(r, cfg, h, e))
  {
    match e
    case Take(m) =>
      if r.task.Idle? && !Stopped(r) {
        GotoKeeps(r, Opening(m));
      }
    case Work(choice) => WorkKeeps(r, cfg, h, choice);
    case Fails =>
      if !Stopped(r) {
        FailsKeeps(r);
      }
    case ChannelCloses => assert Inv(r.(channelOpen := false));
    case TamperPart(id, content) =>
      if id in r.files {
        PutKeeps(r, id, r.files[id].(disk := content));
      }
    case TamperFinal(id, content) =>
      if id in r.finals {
        TamperFinalKeeps(r, id, content);
      }
    case StartCleanup =>
      if r.cleanup.NotStarted? && Stopped(r) {
        StartKeeps(r, false, if r.channelOpen then r.sent + [Abort] else r.sent);
        StartKeeps(r, r.channelOpen, r.sent);
      }
    case VisitFile(id) =>
      if r.cleanup.Visiting? && id in r.files && id !in r.cleanup.visited {
        VisitKeeps(r, id);
      }
    case FinishRemoval =>
      if r.cleanup.Removing? {
        RemovalKeeps(r);
      }
    case FinishCleanup =>
      if r.cleanup.Visiting? && r.files.Keys <= r.cleanup.visited {
        FinishKeeps(r);
      }
  }
}
