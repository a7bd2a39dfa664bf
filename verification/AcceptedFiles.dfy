/** What a receiver begins: only files of the manifest the user accepted, and only messages in turn. */
module AcceptedFiles {
  import opened Prelude
  import opened Frames
  import opened SenderMachine
  import opened ReceiverMachine
  import opened AllOrNothing
  import opened Acknowledgements

  // ----- only what was accepted -----

  /** The manifest the user accepted, if there is one, and within the limits: at most 100 files of at most a gibibyte, numbered from zero. */
  predicate Agreed(cfg: Config, entries: seq<Entry>) {
    && (cfg.accepted.Some? ==> cfg.accepted.value == entries)
    && 1 <= |entries| <= 100
    && forall i :: 0 <= i < |entries| ==> entries[i].id == i && entries[i].size <= 1024 * 1024 * 1024
  }

  /** Nothing was begun, nothing will be: the error is on its way or has struck. */
  predicate NothingBegun(r: Receiver) {
    && r.files == map[] && r.finals == map[] && !r.completed
    && (r.task.Throwing? || (r.failed && (r.task.Idle? || r.task.Opening?)))
  }

  predicate Announced(r: Receiver, id: nat, size: nat) {
    r.manifest.Some? && Find(r.manifest.value, id).Some? && Find(r.manifest.value, id).value.size == size
  }

  ghost predicate OnlyAccepted(r: Receiver, cfg: Config) {
    && (r.manifest.Some? && !Agreed(cfg, r.manifest.value) ==> NothingBegun(r))
    && (forall id :: id in r.files ==> Announced(r, id, r.files[id].size))
    && (r.task.Reserving? ==> Announced(r, r.task.id, r.task.size))
  }

  /** The step changes neither the manifest nor which files there are and what was announced of them. */
  predicate SameTerms(r: Receiver, t: Receiver) {
    t.manifest == r.manifest && Terms(t.files) == Terms(r.files) && !t.task.Reserving?
  }

  /** What was announced of each file: its size, and its digest if that came already. */
  function Terms(files: map<nat, FileState>): map<nat, (nat, Option<Digest>)> {
    map id | id in files :: (files[id].size, files[id].expectedSha)
  }

  /** Writing a file's state back on the same terms. */
  lemma TermsKept(files: map<nat, FileState>, id: nat, state: FileState)
    requires id in files && state.size == files[id].size && state.expectedSha == files[id].expectedSha
    ensures Terms(files[id := state]) == Terms(files)
  {
  }

  lemma GotoTerms(r: Receiver, task: Task)
    requires !task.Reserving?
    ensures SameTerms(r, Goto(r, task))
  {
  }

  lemma FinalizeTerms(r: Receiver, id: nat)
    ensures SameTerms(r, Finalize(r, id)) && SameTerms(r, ResolveDone(r)) && SameTerms(r, GiveUp(r, id))
  {
    if id in r.files {
      TermsKept(r.files, id, r.files[id].(finalizing := true));
      TermsKept(r.files, id, r.files[id].(finalizing := false));
    }
  }

  lemma UnpublishTerms(r: Receiver, id: nat)
    ensures Unpublish(r, id).manifest == r.manifest && Terms(Unpublish(r, id).files) == Terms(r.files)
    ensures Unpublish(r, id).task == r.task
  {
    if id in r.files {
      TermsKept(r.files, id, r.files[id].(published := false));
    }
  }

  lemma OpeningTerms(r: Receiver, cfg: Config, m: Control)
    requires r.task.Opening? && !m.Manifest? && !m.FileBegin? && !m.FileEnd?
    ensures SameTerms(r, OpenControl(r, cfg, m))
  {
    GotoTerms(r, Throwing);
    match m
    case AllDone => FinalizeTerms(r.(allDoneSeen := true), 0);
    case _ =>
  }

  lemma OpenChunkTerms(r: Receiver, c: Chunk)
    ensures SameTerms(r, OpenChunk(r, c))
  {
    if c.id in r.files {
      TermsKept(r.files, c.id, WithChunk(r.files[c.id], c.payload));
    }
    TakenOrThrown(r, c);
  }

  lemma WriteTerms(r: Receiver, id: nat, payload: Bytes)
    ensures SameTerms(r, Write(r, id, payload))
  {
    if id in r.files {
      var state := r.files[id].(disk := r.files[id].disk + payload);
      TermsKept(r.files, id, state);
      FinalizeTerms(Put(r, id, state), id);
    }
  }

  lemma CheckFinalTerms(r: Receiver, h: Hash, id: nat, ok: bool)
    ensures SameTerms(r, CheckFinal(r, h, id, ok))
  {
    FinalizeTerms(r, id);
    if id in r.files && id in r.finals {
      var state := r.files[id].(done := true);
      TermsKept(r.files, id, state);
      FinalizeTerms(Put(r, id, state).(sent := r.sent + [FileOk(id)], verified := r.verified[id := h(r.finals[id])]), id);
    }
  }

  lemma PublishReturnsTerms(r: Receiver, id: nat, ok: bool)
    ensures SameTerms(r, PublishReturns(r, id, ok))
  {
    FinalizeTerms(r.(finals := r.finals - {id}), id);
    if id in r.files {
      TermsKept(r.files, id, r.files[id].(published := true));
    }
  }

  lemma RestartTerms(r: Receiver, id: nat)
    ensures SameTerms(r, RestartFile(r, id))
  {
    if id in r.files {
      TermsKept(r.files, id, r.files[id].(hashed := [], disk := [], expectedSeq := 0));
    }
  }

  lemma CleanFinalTerms(r: Receiver, id: nat)
    ensures SameTerms(r, GiveUp(Unpublish(r, id), id))
  {
    UnpublishTerms(r, id);
    FinalizeTerms(Unpublish(r, id), id);
  }

  lemma CheckTerms(r: Receiver, cfg: Config, h: Hash, choice: Choice)
    requires r.task.EndingStream? || r.task.DigestingPart? || r.task.SealingOk? || r.task.Publishing?
    ensures SameTerms(r, WorkOn(r, cfg, h, choice))
  {
    FinalizeTerms(r, r.task.id);
  }

  lemma EarlyTerms(r: Receiver, cfg: Config, h: Hash, choice: Choice)
    requires r.task.Idle? || r.task.Restarting? || r.task.Writing? || r.task.Replying? || r.task.Resolving? || r.task.Throwing?
    ensures SameTerms(r, WorkOn(r, cfg, h, choice))
  {
    match r.task
    case Restarting(id) => RestartTerms(r, id);
    case Writing(id, payload) => WriteTerms(r, id, payload);
    case _ =>
  }

  lemma MiddleTerms(r: Receiver, cfg: Config, h: Hash, choice: Choice)
    requires !r.task.Opening? && !r.task.Reserving?
    ensures SameTerms(r, WorkOn(r, cfg, h, choice))
  {
    match r.task
    case EndingStream(_) => CheckTerms(r, cfg, h, choice);
    case DigestingPart(_) => CheckTerms(r, cfg, h, choice);
    case SealingOk(_) => CheckTerms(r, cfg, h, choice);
    case Publishing(_) => CheckTerms(r, cfg, h, choice);
    case Linked(id) => PublishReturnsTerms(r, id, choice.ok);
    case DigestingFinal(id) => CheckFinalTerms(r, h, id, choice.ok);
    case CleaningFinal(id) => CleanFinalTerms(r, id);
    case _ => EarlyTerms(r, cfg, h, choice);
  }

  lemma SameTermsAccepted(r: Receiver, t: Receiver, cfg: Config)
    requires OnlyAccepted(r, cfg) && t.manifest == r.manifest && Terms(t.files) == Terms(r.files)
    requires t.task.Reserving? ==> t.task == r.task
    requires t.manifest.Some? && !Agreed(cfg, t.manifest.value) ==> NothingBegun(t)
    ensures OnlyAccepted(t, cfg)
  {
    assert t.files.Keys == Terms(t.files).Keys == r.files.Keys;
    assert forall id :: id in t.files ==> t.files[id].size == Terms(t.files)[id].0 == r.files[id].size;
  }

  /** Once refused, always refused: with no file begun, a handler can only fail. */
  lemma RefusedStays(r: Receiver, cfg: Config, h: Hash, e: ReceiverEvent)
    requires Inv(r) && NothingBegun(r)
    ensures NothingBegun(ReceiverStep(r, cfg, h, e))
  {
  }

  lemma OpeningAccepted(r: Receiver, cfg: Config, m: Control)
    requires Inv(r) && OnlyAccepted(r, cfg) && r.task.Opening? && !Stopped(r)
    ensures OnlyAccepted(OpenControl(r, cfg, m), cfg)
  {
    if m.Manifest? {
      if r.manifest.None? {
        NothingYet(r);
      }
    } else if m.FileEnd? {
      FileEndAccepted(r, cfg, m.id, m.sha256);
    } else if !m.FileBegin? {
      OpeningTerms(r, cfg, m);
      SameTermsAccepted(r, OpenControl(r, cfg, m), cfg);
    }
  }

  lemma FileEndAccepted(r: Receiver, cfg: Config, id: nat, sha256: Digest)
    requires OnlyAccepted(r, cfg) && !r.failed && r.task.Opening?
    ensures OnlyAccepted(OpenFileEnd(r, id, sha256), cfg)
  {
    if id in r.files {
      var s := Put(r, id, r.files[id].(expectedSha := Some(sha256)));
      FinalizeTerms(s, id);
      SameTermsAccepted(s, Finalize(s, id), cfg);
    }
  }

  lemma OpenedAccepted(r: Receiver, cfg: Config, h: Hash, choice: Choice)
    requires Inv(r) && OnlyAccepted(r, cfg) && r.task.Opening? && choice.ok && !Stopped(r)
    ensures OnlyAccepted(WorkOn(r, cfg, h, choice), cfg)
  {
    match r.task.message
    case OnControl(m) => OpeningAccepted(r, cfg, m);
    case OnBulk(c) =>
      OpenChunkTerms(r, c);
      SameTermsAccepted(r, OpenChunk(r, c), cfg);
  }

  lemma WorkAccepted(r: Receiver, cfg: Config, h: Hash, choice: Choice)
    requires Inv(r) && OnlyAccepted(r, cfg)
    ensures OnlyAccepted(WorkOn(r, cfg, h, choice), cfg)
  {
    if NothingBegun(r) {
      RefusedStays(r, cfg, h, Work(choice));
    }
    if r.task.Opening? {
      if choice.ok && !Stopped(r) {
        OpenedAccepted(r, cfg, h, choice);
      } else {
        ThrownAccepted(r, cfg);
      }
    } else if r.task.Reserving? {
      ReserveAccepted(r, cfg, h, choice);
    } else {
      MiddleTerms(r, cfg, h, choice);
      SameTermsAccepted(r, WorkOn(r, cfg, h, choice), cfg);
    }
  }

  lemma ThrownAccepted(r: Receiver, cfg: Config)
    requires OnlyAccepted(r, cfg)
    ensures OnlyAccepted(Goto(r, Throwing), cfg)
  {
    SameTermsAccepted(r, Goto(r, Throwing), cfg);
  }

  lemma ReserveAccepted(r: Receiver, cfg: Config, h: Hash, choice: Choice)
    requires OnlyAccepted(r, cfg) && r.task.Reserving?
    ensures OnlyAccepted(WorkOn(r, cfg, h, choice), cfg)
  {
  }

  lemma StepAccepted(r: Receiver, cfg: Config, h: Hash, e: ReceiverEvent)
    requires Inv(r) && OnlyAccepted(r, cfg)
    ensures OnlyAccepted(ReceiverStep(r, cfg, h, e), cfg)
  {
    if e.Work? {
      WorkAccepted(r, cfg, h, e.choice);
    } else {
      OtherTerms(r, cfg, h, e);
      if NothingBegun(r) {
        RefusedStays(r, cfg, h, e);
      }
      SameTermsAccepted(r, ReceiverStep(r, cfg, h, e), cfg);
    }
  }

  lemma OtherTerms(r: Receiver, cfg: Config, h: Hash, e: ReceiverEvent)
    requires !e.Work?
    ensures var t := ReceiverStep(r, cfg, h, e);
            t.manifest == r.manifest && Terms(t.files) == Terms(r.files) && (t.task.Reserving? ==> t.task == r.task)
  {
    if e.FinishRemoval? {
      RemovalTerms(r, cfg, h);
    } else if e.TamperPart? {
      TamperTerms(r, cfg, h, e.id, e.content);
    } else {
      OthersKeepFiles(r, cfg, h, e);
      OthersKeepManifest(r, cfg, h, e);
    }
  }

  lemma OthersKeepManifest(r: Receiver, cfg: Config, h: Hash, e: ReceiverEvent)
    requires !e.Work?
    ensures ReceiverStep(r, cfg, h, e).manifest == r.manifest
  {
  }

  lemma OthersKeepFiles(r: Receiver, cfg: Config, h: Hash, e: ReceiverEvent)
    requires !e.Work? && !(e.TamperPart? && e.id in r.files) && !(e.FinishRemoval? && r.cleanup.Removing?)
    ensures var t := ReceiverStep(r, cfg, h, e); t.files == r.files && (t.task == r.task || t.task.Opening?)
  {
    if e.VisitFile? {
      VisitKeepsFiles(r, cfg, h, e.id);
    } else if e.TamperFinal? {
      TamperFinalKeepsFiles(r, cfg, h, e.id, e.content);
    } else if e.StartCleanup? {
      StartKeepsFiles(r, cfg, h);
    }
  }

  lemma VisitKeepsFiles(r: Receiver, cfg: Config, h: Hash, id: nat)
    ensures var t := ReceiverStep(r, cfg, h, VisitFile(id)); t.files == r.files && t.task == r.task
  {
  }

  lemma TamperFinalKeepsFiles(r: Receiver, cfg: Config, h: Hash, id: nat, content: Bytes)
    ensures var t := ReceiverStep(r, cfg, h, TamperFinal(id, content)); t.files == r.files && t.task == r.task
  {
  }

  lemma StartKeepsFiles(r: Receiver, cfg: Config, h: Hash)
    ensures var t := ReceiverStep(r, cfg, h, StartCleanup); t.files == r.files && t.task == r.task
  {
  }

  lemma RemovalTerms(r: Receiver, cfg: Config, h: Hash)
    ensures var t := ReceiverStep(r, cfg, h, FinishRemoval);
            t.manifest == r.manifest && Terms(t.files) == Terms(r.files) && t.task == r.task
  {
    if r.cleanup.Removing? {
      UnpublishTerms(r, r.cleanup.id);
    }
  }

  lemma TamperTerms(r: Receiver, cfg: Config, h: Hash, id: nat, content: Bytes)
    ensures var t := ReceiverStep(r, cfg, h, TamperPart(id, content));
            t.manifest == r.manifest && Terms(t.files) == Terms(r.files) && t.task == r.task
  {
    if id in r.files {
      TermsKept(r.files, id, r.files[id].(disk := content));
    }
  }

  lemma {:induction false} EveryRunAccepted(cfg: Config, h: Hash, events: seq<ReceiverEvent>)
    ensures Inv(ReceiverRun(cfg, h, events)) && OnlyAccepted(ReceiverRun(cfg, h, events), cfg)
  {
    EveryRunKeeps(cfg, h, events);
    if events != [] {
      var before := events[..|events| - 1];
      EveryRunAccepted(cfg, h, before);
      StepAccepted(ReceiverRun(cfg, h, before), cfg, h, events[|events| - 1]);
    }
  }

  lemma {:induction false} FindAt(entries: seq<Entry>, id: nat)
    requires forall i :: 0 <= i < |entries| ==> entries[i].id == i
    ensures Find(entries, id) == if id < |entries| then Some(entries[id]) else None
  {
    if entries != [] {
      FindAt(entries[..|entries| - 1], id);
    }
  }

  /**
   Whatever arrives: as soon as a file is begun, a final file exists or the transfer has
   completed, the manifest is the one the user accepted and within the limits, and every file
   is one of its entries, of the announced size.
  */
  lemma OnlyAcceptedFiles(cfg: Config, h: Hash, events: seq<ReceiverEvent>)
    ensures var r := ReceiverRun(cfg, h, events);
            r.files != map[] || r.finals != map[] || r.completed ==>
              && r.manifest.Some? && (cfg.accepted.Some? ==> r.manifest == cfg.accepted)
              && var entries := r.manifest.value;
              && 1 <= |entries| <= 100
              && (forall i :: 0 <= i < |entries| ==> entries[i].id == i && entries[i].size <= 1024 * 1024 * 1024)
              && (forall id :: id in r.files ==> id < |entries| && r.files[id].size == entries[id].size)
              && (forall id :: id in r.finals ==> id in r.files)
  {
    EveryRunAccepted(cfg, h, events);
    var r := ReceiverRun(cfg, h, events);
    if r.files != map[] || r.finals != map[] || r.completed {
      FinalsHaveFiles(r);
      forall id | id in r.files
        ensures id < |r.manifest.value| && r.files[id].size == r.manifest.value[id].size
      {
        FindAt(r.manifest.value, id);
      }
    }
  }

  lemma FinalsHaveFiles(r: Receiver)
    requires Inv(r)
    ensures forall id :: id in r.finals ==> id in r.files
    ensures r.files != map[] || r.completed || r.finals != map[] ==> r.manifest.Some?
  {
  }

  // ----- a manifest that was not accepted -----

  /** The first manifest is on the table and is not the accepted one, or it has been refused. */
  predicate Refusing(r: Receiver, entries: seq<Entry>) {
    || NothingBegun(r)
    || (r.files == map[] && r.finals == map[] && !r.completed && r.manifest.None?
        && r.task == Opening(OnControl(Manifest(entries))))
  }

  lemma RefusingStays(r: Receiver, cfg: Config, h: Hash, entries: seq<Entry>, e: ReceiverEvent)
    requires Inv(r) && Refusing(r, entries) && cfg.accepted.Some? && entries != cfg.accepted.value
    ensures Refusing(ReceiverStep(r, cfg, h, e), entries)
  {
    if NothingBegun(r) {
      RefusedStays(r, cfg, h, e);
    }
  }

  lemma NothingYet(r: Receiver)
    requires Inv(r) && r.manifest.None?
    ensures r.files == map[] && r.finals == map[] && !r.completed
  {
    assert r.finals.Keys == {};
  }

  lemma RunOneMore(cfg: Config, h: Hash, events: seq<ReceiverEvent>, e: ReceiverEvent)
    ensures ReceiverRun(cfg, h, events + [e]) == ReceiverStep(ReceiverRun(cfg, h, events), cfg, h, e)
    ensures Inv(ReceiverRun(cfg, h, events))
  {
    EveryRunKeeps(cfg, h, events);
    assert (events + [e])[..|events|] == events;
  }

  /** Once the first manifest to arrive is not the accepted one, no file is ever begun, let alone published. */
  lemma {:induction false} OtherManifestRefused(cfg: Config, h: Hash, events: seq<ReceiverEvent>, later: seq<ReceiverEvent>, entries: seq<Entry>)
    requires cfg.accepted.Some? && entries != cfg.accepted.value
    requires var r := ReceiverRun(cfg, h, events); r.manifest.None? && r.task == Opening(OnControl(Manifest(entries)))
    ensures var t := ReceiverRun(cfg, h, events + later);
            Refusing(t, entries) && t.files == map[] && t.finals == map[] && !t.completed
    decreases |later|
  {
    EveryRunKeeps(cfg, h, events);
    if later == [] {
      assert events + later == events;
      NothingYet(ReceiverRun(cfg, h, events));
    } else {
      var before := later[..|later| - 1];
      OtherManifestRefused(cfg, h, events, before, entries);
      RunOneMore(cfg, h, events + before, later[|later| - 1]);
      assert events + later == events + before + [later[|later| - 1]];
      RefusingStays(ReceiverRun(cfg, h, events + before), cfg, h, entries, later[|later| - 1]);
    }
  }

  // ----- a message out of turn -----

  /** What the receiver may be told next, by what it was told before. */
  predicate InOrder(r: Receiver, cfg: Config, m: Control) {
    match m
    case Manifest(entries) => r.manifest.None? && Agreed(cfg, entries)
    case FileBegin(id, name, size) => r.manifest.Some? && id !in r.files && Entry(id, name, size) in r.manifest.value
    case Restart(id) => id in r.files && !r.files[id].done && r.files[id].expectedSha.None?
    case FileEnd(id, _) => id in r.files && r.files[id].expectedSha.None?
    case AllDone => r.manifest.Some? && !r.allDoneSeen && forall id: nat :: id < |r.manifest.value| ==> id in r.files
    case _ => false
  }

  predicate ChunkInOrder(r: Receiver, c: Chunk) {
    && c.id in r.files && !r.files[c.id].done && c.seqNo == r.files[c.id].expectedSeq
    && 0 < |c.payload| <= r.files[c.id].size - |r.files[c.id].hashed|
  }

  predicate MessageInOrder(r: Receiver, cfg: Config, message: Message) {
    match message
    case OnControl(m) => InOrder(r, cfg, m)
    case OnBulk(c) => ChunkInOrder(r, c)
  }

  /** A sound message is refused exactly if it is out of turn: an error that ends the transfer. */
  lemma OutOfTurnRefused(cfg: Config, h: Hash, events: seq<ReceiverEvent>, choice: Choice)
    requires choice.ok
    ensures var r := ReceiverRun(cfg, h, events);
            var t := ReceiverRun(cfg, h, events + [Work(choice)]);
            r.task.Opening? && !Stopped(r) ==> (t.task.Throwing? <==> !MessageInOrder(r, cfg, r.task.message))
  {
    EveryRunAccepted(cfg, h, events);
    RunOneMore(cfg, h, events, Work(choice));
    var r := ReceiverRun(cfg, h, events);
    if r.task.Opening? && !Stopped(r) {
      match r.task.message
      case OnControl(m) => ControlInTurn(r, cfg, m);
      case OnBulk(c) => ChunkInTurn(r, c);
    }
  }

  lemma ControlInTurn(r: Receiver, cfg: Config, m: Control)
    requires Inv(r) && OnlyAccepted(r, cfg) && !r.failed && r.task.Opening?
    ensures OpenControl(r, cfg, m).task.Throwing? <==> !InOrder(r, cfg, m)
  {
    if m.FileBegin? && r.manifest.Some? {
      BeginInTurn(r, cfg, m.id, m.name, m.size);
    } else if m.AllDone? {
      AllDoneInTurn(r, cfg);
    } else if m.Manifest? {
      ManifestInTurn(r, cfg, m.files);
    }
  }

  lemma ManifestInTurn(r: Receiver, cfg: Config, entries: seq<Entry>)
    ensures OpenManifest(r, cfg, entries).task.Throwing? <==> r.manifest.Some? || !Agreed(cfg, entries)
  {
  }

  lemma ChunkInTurn(r: Receiver, c: Chunk)
    ensures OpenChunk(r, c).task.Throwing? <==> !ChunkInOrder(r, c)
  {
    if ChunkInOrder(r, c) {
      assert OpenChunk(r, c).task == Writing(c.id, c.payload);
    } else {
      assert OpenChunk(r, c) == Goto(r, Throwing);
    }
  }

  lemma BeginInTurn(r: Receiver, cfg: Config, id: nat, name: int, size: nat)
    requires OnlyAccepted(r, cfg) && !r.failed && r.task.Opening? && r.manifest.Some?
    ensures Matches(Find(r.manifest.value, id), name, size) <==> Entry(id, name, size) in r.manifest.value
  {
    var entries := r.manifest.value;
    FindAt(entries, id);
    if Entry(id, name, size) in entries {
      var i :| 0 <= i < |entries| && entries[i] == Entry(id, name, size);
      assert entries[i].id == i;
    }
  }

  lemma AllDoneInTurn(r: Receiver, cfg: Config)
    requires Inv(r) && OnlyAccepted(r, cfg) && !r.failed && r.task.Opening?
    ensures r.manifest.Some? ==>
              (|r.files| == |Ids(r.manifest.value)| <==> forall id: nat :: id < |r.manifest.value| ==> id in r.files)
  {
    if r.manifest.Some? {
      var entries := r.manifest.value;
      assert forall id: nat :: id < |entries| ==> entries[id].id == id;
      forall id: nat | id < |entries|
        ensures id in Ids(entries)
      {
        assert entries[id].id == id;
      }
      assert |r.files| == |r.files.Keys|;
      if forall id: nat :: id < |entries| ==> id in r.files {
        assert r.files.Keys == Ids(entries);
      }
      if |r.files| == |Ids(entries)| {
        SubsetOfSameSize(r.files.Keys, Ids(entries));
      }
    }
  }

  // ----- errors -----

  /** The tasks whose next operation can go wrong. */
  predicate Fallible(task: Task) {
    || task.Opening? || task.Reserving? || task.Restarting? || task.Writing? || task.EndingStream?
    || task.DigestingPart? || task.Publishing? || task.Linked? || task.DigestingFinal?
  }

  /** Nothing is taken, said or made, and the error is on its way. */
  ghost predicate OnlyThrows(r: Receiver, t: Receiver) {
    && t.task.Throwing? && t.sent == r.sent && t.manifest == r.manifest && t.files.Keys == r.files.Keys
    && t.finals.Keys <= r.finals.Keys && t.completed == r.completed && t.allDoneSeen == r.allDoneSeen
  }

  lemma GivingUpThrows(r: Receiver, id: nat)
    ensures OnlyThrows(r, GiveUp(r, id)) && OnlyThrows(r, Goto(r, Throwing))
  {
  }

  lemma LinkingUndoneThrows(r: Receiver, id: nat)
    ensures OnlyThrows(r, GiveUp(r.(finals := r.finals - {id}), id))
  {
    var dropped := r.(finals := r.finals - {id});
    GivingUpThrows(dropped, id);
    assert dropped.finals.Keys <= r.finals.Keys;
  }

  /**
   A forged or damaged message, and any other operation that goes wrong, throws, and the next
   step of the handler fails the transfer.
  */
  lemma ErrorThrows(r: Receiver, cfg: Config, h: Hash, choice: Choice)
    requires Fallible(r.task) && !choice.ok
    ensures OnlyThrows(r, WorkOn(r, cfg, h, choice))
    ensures r.task.Opening? ==> WorkOn(r, cfg, h, choice) == r.(task := Throwing)
  {
    if r.task.Opening? || r.task.Reserving? || r.task.Restarting? || r.task.Writing? {
      EarlyErrorThrows(r, cfg, h, choice);
    } else {
      LateErrorThrows(r, cfg, h, choice);
    }
  }

  lemma EarlyErrorThrows(r: Receiver, cfg: Config, h: Hash, choice: Choice)
    requires (r.task.Opening? || r.task.Reserving? || r.task.Restarting? || r.task.Writing?) && !choice.ok
    ensures WorkOn(r, cfg, h, choice) == r.(task := Throwing) && OnlyThrows(r, WorkOn(r, cfg, h, choice))
  {
    GivingUpThrows(r, 0);
  }

  lemma LateErrorThrows(r: Receiver, cfg: Config, h: Hash, choice: Choice)
    requires Fallible(r.task) && !r.task.Opening? && !r.task.Reserving? && !r.task.Restarting? && !r.task.Writing? && !choice.ok
    ensures OnlyThrows(r, WorkOn(r, cfg, h, choice))
  {
    GivingUpThrows(r, r.task.id);
    LinkingUndoneThrows(r, r.task.id);
  }

  /** An error that is thrown and one that the channels report fail a transfer that has not completed. */
  lemma ErrorFails(r: Receiver, cfg: Config, h: Hash, choice: Choice)
    requires !r.completed
    ensures r.task.Throwing? ==> WorkOn(r, cfg, h, choice).failed && WorkOn(r, cfg, h, choice).task.Idle?
    ensures ReceiverStep(r, cfg, h, Fails).failed
  {
  }

  /** The cleanup of a failed transfer begins with a last word to the sender, if the channel still takes it. */
  lemma FailureIsTold(r: Receiver, cfg: Config, h: Hash)
    requires r.failed && r.cleanup.NotStarted?
    ensures var t := ReceiverStep(r, cfg, h, StartCleanup);
            t.sent == (if r.channelOpen then r.sent + [Abort] else r.sent) && !t.channelOpen && !t.cleanup.NotStarted?
  {
  }
}
