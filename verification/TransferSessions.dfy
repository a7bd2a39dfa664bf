/**
 The two ends of a transfer as objects whose fields the handlers update in place.

 Each method is one stretch of the program from one await to the next, and does exactly what
 the machine of SenderMachine or ReceiverMachine says; so every theorem about runs of the
 machines is one about runs of these objects.
*/
module TransferSessions {
  import opened Prelude
  import opened Frames
  import opened SenderMachine
  import opened ReceiverMachine
  import opened ControlWaiter
  import opened Settling
  import AllOrNothing
  import Acknowledgements
  import AcceptedFiles
  import Agreement
  import Integrity

  /** The sender: its loop, its message handler, and the waiter through which they meet. */
  class SendSession {
    const plan: seq<SendFile>
    const h: Hash
    const acks: ControlAckWaiter
    var pc: Pc
    var readyStates: map<nat, ReadyState>
    var failed: bool
    var completed: bool
    ghost var sealLog: seq<(nat, nat)>
    ghost var restartLog: seq<nat>

    constructor (plan: seq<SendFile>, h: Hash)
      ensures View() == INITIAL_SENDER && this.plan == plan && this.h == h
      ensures Valid() && fresh(acks)
    {
      this.plan, this.h := plan, h;
      acks := new ControlAckWaiter();
      pc, readyStates, failed, completed := AtManifest, map[], false, false;
      sealLog, restartLog := [], [];
    }

    /** The armed waits are the machine's pending acknowledgements, until an error has left the loop. */
    ghost function View(): Sender
      reads this, acks
    {
      Sender(pc, readyStates, if pc.Threw? then {} else acks.pending.Keys, failed, completed, sealLog, restartLog)
    }

    /** The waiter rejects exactly after the sender failed. */
    ghost predicate Coupled()
      reads this, acks
    {
      acks.Valid() && acks.failed == failed
    }

    /** Only chunks of the plan were sealed, and none of them twice. */
    ghost predicate Valid()
      reads this, acks
    {
      Coupled() && SealedOnce(View()) && SealedFromPlan(View(), plan)
    }

    method FailSender()
      requires Coupled() && !pc.Threw?
      modifies this`failed, acks
      ensures Coupled() && View() == SenderMachine.Fail(old(View()))
    {
      failed := true;
      acks.Fail();
    }

    /** Resolves an armed wait and moves the loop behind it, or fails on an unexpected word. */
    method MarkOrFail(ack: Ack, next: Pc)
      requires Coupled() && !pc.Threw? && !next.Threw?
      modifies this`failed, this`pc, acks
      ensures Coupled() && View() == Mark(old(View()), ack, next)
    {
      var known := acks.Mark(ack);
      if known {
        pc := next;
      } else {
        assert acks.pending == old(acks.pending);
        FailSender();
      }
      assert (old(acks.pending) - {ack}).Keys == old(acks.pending).Keys - {ack};
    }

    method Arm(ack: Ack)
      requires Coupled() && !failed
      modifies acks
      ensures Coupled() && acks.pending.Keys == old(acks.pending).Keys + {ack}
    {
      var promise := acks.Wait(ack);
    }

    /** handleSenderControl. */
    method OnControl(m: Control)
      requires Valid()
      modifies this, acks
      ensures Valid() && View() == Receive(old(View()), m)
    {
      StepSealsOnce(View(), plan, h, Incoming(m));
      StepSealsFromPlan(View(), plan, h, Incoming(m));
      TakeControl(m);
    }

    method TakeControl(m: Control)
      requires Coupled()
      modifies this, acks
      ensures Coupled() && View() == Receive(old(View()), m)
    {
      if completed || pc.Returned? || pc.Threw? {
        return;
      }
      match m
      case Ready(id, offset, prefix) =>
        if offset > MAX_FILE_BYTES || (offset > 0 && prefix.None?) {
          FailSender();
        } else {
          readyStates := readyStates[id := ReadyState(offset, if offset == 0 then None else prefix)];
          MarkOrFail(ReadyAck(id), if pc == AwaitReady(id) || pc == AwaitRestart(id) then Verifying(id) else pc);
        }
      case FileOk(id) => MarkOrFail(FileOkAck(id), if pc == AwaitFileOk(id) then AtBegin(id + 1) else pc);
      case AllDoneOk => TakeAllDoneOk();
      case _ => FailSender();
    }

    method TakeAllDoneOk()
      requires Coupled() && !completed && !pc.Returned? && !pc.Threw?
      modifies this, acks
      ensures Coupled() && View() == Receive(old(View()), AllDoneOk)
    {
      var known := acks.Mark(AllDoneAck);
      if known {
        assert (old(acks.pending) - {AllDoneAck}).Keys == old(acks.pending).Keys - {AllDoneAck};
        pc := if pc == AwaitAllDoneOk then Returned else pc;
        completed := true;
      } else {
        assert acks.pending == old(acks.pending);
        FailSender();
      }
    }

    method ThrowError() returns (out: Output)
      modifies this`pc
      ensures View() == Throw(old(View())) && out == ABORTING
    {
      pc := Threw;
      out := ABORTING;
    }

    /** A wait times out: its promise is rejected and the loop leaves with an error. */
    method OnTimeout(ack: Ack)
      requires Valid() && ack in acks.pending && !pc.Returned? && !pc.Threw?
      modifies this, acks
      ensures Valid() && View() == SenderStep(old(View()), plan, h, TimesOut)
      ensures pc.Threw? && ack !in acks.pending && sealLog == old(sealLog)
    {
      StepSealsOnce(View(), plan, h, TimesOut);
      StepSealsFromPlan(View(), plan, h, TimesOut);
      acks.TimeOut(ack);
      pc := Threw;
    }

    /** verifiedReadyState. */
    method VerifyReadyState(f: nat) returns (out: Output)
      requires Coupled() && !failed && pc == Verifying(f)
      modifies this, acks
      ensures Coupled() && (View(), out) == VerifyReady(old(View()), plan, h, f)
      ensures var ready := ReadyOf(old(View()), f);
              && (pc.Threw? <==> !ValidOffset(Size(plan, f), ready.offset))
              && (ValidOffset(Size(plan, f), ready.offset) ==>
                    var trusted := ready.offset == 0 || ready.prefix == Some(h(Content(plan, f)[..ready.offset]));
                    pc == if trusted then Streaming(f, StartSeq(Size(plan, f), ready.offset)) else AwaitRestart(f))
    {
      var ready := if f in readyStates then readyStates[f] else ReadyState(0, None);
      readyStates := readyStates - {f};
      if !ValidOffset(Size(plan, f), ready.offset) {
        out := ThrowError();
      } else if ready.offset == 0 || ready.prefix == Some(h(Content(plan, f)[..ready.offset])) {
        pc := Streaming(f, StartSeq(Size(plan, f), ready.offset));
        out := NOTHING;
      } else {
        Arm(ReadyAck(f));
        pc := AwaitRestart(f);
        restartLog := restartLog + [f];
        out := Output([Restart(f)], []);
      }
    }

    /** One step of the loop over files and chunks. */
    method Proceed() returns (out: Output)
      requires Valid()
      modifies this, acks
      ensures Valid() && (View(), out) == Advance(old(View()), plan, h)
    {
      StepSealsOnce(View(), plan, h, SenderEvent.Proceed);
      StepSealsFromPlan(View(), plan, h, SenderEvent.Proceed);
      out := NextStep();
    }

    method NextStep() returns (out: Output)
      requires Coupled()
      modifies this, acks
      ensures Coupled() && (View(), out) == Advance(old(View()), plan, h)
    {
      if !CanAdvance(Sender(pc, readyStates, {}, failed, completed, [], [])) {
        return NOTHING;
      }
      if failed {
        out := ThrowError();
        return;
      }
      match pc
      case AtManifest =>
        pc := AtBegin(0);
        out := Output([Manifest(EntriesOf(plan))], []);
      case AtBegin(f) =>
        if f < |plan| {
          Arm(ReadyAck(f));
          pc := AwaitReady(f);
          out := Output([FileBegin(f, plan[f].name, |plan[f].content|)], []);
        } else {
          Arm(AllDoneAck);
          pc := AwaitAllDoneOk;
          out := Output([AllDone], []);
        }
      case Verifying(f) => out := VerifyReadyState(f);
      case Streaming(f, k) =>
        if k < NumChunks(Size(plan, f)) {
          sealLog := sealLog + [(f, k)];
          pc := Sealed(f, k);
          out := NOTHING;
        } else {
          Arm(FileOkAck(f));
          pc := AwaitFileOk(f);
          out := Output([FileEnd(f, Sha(h, plan, f))], []);
        }
      case Sealed(f, k) =>
        pc := Streaming(f, k + 1);
        out := Output([], [Chunk(f, k, ChunkOf(Content(plan, f), k))]);
      case _ => out := NOTHING;
    }
  }

  class ReceiveSession {
    const cfg: Config
    const h: Hash
    var manifest: Option<seq<Entry>>
    var files: map<nat, FileState>
    var finals: map<nat, Bytes>
    var allDoneSeen: bool
    var failed: bool
    var completed: bool
    var channelOpen: bool
    var task: Task
    var cleanup: Cleanup
    var sent: seq<Control>
    ghost var verified: map<nat, Digest>

    constructor (cfg: Config, h: Hash)
      ensures View() == INITIAL_RECEIVER && this.cfg == cfg && this.h == h
    {
      this.cfg, this.h := cfg, h;
      manifest, files, finals, verified := None, map[], map[], map[];
      allDoneSeen, failed, completed, channelOpen := false, false, false, true;
      task, cleanup, sent := Idle, NotStarted, [];
    }

    ghost function View(): Receiver
      reads this
    {
      Receiver(manifest, files, finals, verified, allDoneSeen, failed, completed, channelOpen, task, cleanup, sent)
    }

    /** maybeResolveDone, up to its await. */
    method MaybeResolveDone()
      modifies this`task
      ensures View() == ResolveDone(old(View()))
    {
      task := Idle;
      if allDoneSeen {
        var all := true;
        var ids := files.Keys;
        while ids != {}
          invariant ids <= files.Keys
          invariant all <==> forall id :: id in files && id !in ids ==> files[id].done
          decreases ids
        {
          var id :| id in ids;
          if !files[id].done {
            all := false;
          }
          ids := ids - {id};
        }
        if all {
          task := Resolving;
        }
      }
    }

    /** maybeFinalize, up to its first await, then maybeResolveDone if it returns at once. */
    method MaybeFinalize(id: nat)
      modifies this`files, this`task
      ensures View() == Finalize(old(View()), id)
    {
      if id in files && ReadyToFinalize(files[id]) {
        files := files[id := files[id].(finalizing := true)];
        task := EndingStream(id);
      } else {
        MaybeResolveDone();
      }
    }

    method OnManifest(entries: seq<Entry>)
      modifies this`manifest, this`task
      ensures View() == OpenManifest(old(View()), cfg, entries)
    {
      if manifest.Some? {
        task := Throwing;
        return;
      }
      manifest := Some(entries);
      task := if Acceptable(cfg, entries) then Idle else Throwing;
    }

    method OnFileBegin(id: nat, name: int, size: nat)
      modifies this`task
      ensures View() == OpenFileBegin(old(View()), id, name, size)
    {
      task := Throwing;
      if manifest.Some? {
        var expected := Find(manifest.value, id);
        if expected.Some? && id !in files && expected.value.name == name && expected.value.size == size {
          task := Reserving(id, size);
        }
      }
    }

    method OnFileEnd(id: nat, sha256: Digest)
      modifies this`files, this`task
      ensures View() == OpenFileEnd(old(View()), id, sha256)
    {
      if id !in files || files[id].expectedSha.Some? {
        task := Throwing;
        return;
      }
      files := files[id := files[id].(expectedSha := Some(sha256))];
      MaybeFinalize(id);
    }

    method OnAllDone()
      modifies this`allDoneSeen, this`task
      ensures View() == OpenAllDone(old(View()))
    {
      if manifest.None? || allDoneSeen || |files| != |Ids(manifest.value)| {
        task := Throwing;
        return;
      }
      allDoneSeen := true;
      MaybeResolveDone();
    }

    method OnControl(m: Control)
      modifies this`manifest, this`files, this`allDoneSeen, this`task
      ensures View() == OpenControl(old(View()), cfg, m)
    {
      match m
      case Manifest(entries) => OnManifest(entries);
      case FileBegin(id, name, size) => OnFileBegin(id, name, size);
      case Restart(id) =>
        task := if id !in files || files[id].done || files[id].expectedSha.Some? then Throwing else Restarting(id);
      case FileEnd(id, sha256) => OnFileEnd(id, sha256);
      case AllDone => OnAllDone();
      case _ => task := Throwing;
    }

    /** handleBulkMessage, up to the write. */
    method OnChunk(c: Chunk)
      modifies this`files, this`task
      ensures View() == OpenChunk(old(View()), c)
      ensures !task.Writing? ==> task.Throwing? && files == old(files)
      ensures task.Writing? ==>
                && c.id in old(files) && !old(files)[c.id].done && c.seqNo == old(files)[c.id].expectedSeq
                && files == old(files)[c.id := files[c.id]]
                && files[c.id].hashed == old(files)[c.id].hashed + c.payload
                && |old(files)[c.id].hashed| < |files[c.id].hashed| <= files[c.id].size
    {
      task := Throwing;
      if c.id !in files {
        return;
      }
      var state := files[c.id];
      if state.done || (state.expectedSha.Some? && |state.hashed| >= state.size) {
        return;
      }
      if c.seqNo != state.expectedSeq || |c.payload| == 0 || |state.hashed| + |c.payload| > state.size {
        return;
      }
      files := files[c.id := state.(expectedSeq := state.expectedSeq + 1, hashed := state.hashed + c.payload)];
      task := Writing(c.id, c.payload);
    }

    method Reserved(id: nat, size: nat, partial: Bytes)
      modifies this`files, this`task
      ensures View() == Reserve(old(View()), cfg, h, id, size, partial)
    {
      var resumed := [];
      if cfg.resume {
        var resumeBytes := ResumeBytes(CHUNK_SIZE, |partial|, size);
        resumed := partial[..resumeBytes];
      }
      files := files[id := FileState(size, resumed, resumed, StartSeq(size, |resumed|), None, false, false, false)];
      task := Replying(Ready(id, |resumed|, if |resumed| > 0 then Some(h(resumed)) else None));
    }

    /** The catch of maybeFinalize. */
    method FinalizeFailed(id: nat)
      modifies this`files, this`task
      ensures View() == GiveUp(old(View()), id)
    {
      if id in files {
        files := files[id := files[id].(finalizing := false)];
      }
      task := Throwing;
    }

    /** removePublishedFile. */
    method RemovePublished(id: nat)
      modifies this`files, this`finals
      ensures View() == Unpublish(old(View()), id)
    {
      if id in files && files[id].published {
        finals := finals - {id};
        files := files[id := files[id].(published := false)];
      }
    }

    /** publishPartFile, up to the moment the final file appears. */
    method PublishPart(id: nat)
      modifies this`files, this`finals, this`task
      ensures View() == Publish(old(View()), id)
    {
      if id !in files || |files[id].disk| != files[id].size {
        FinalizeFailed(id);
        return;
      }
      finals := finals[id := files[id].disk];
      task := Linked(id);
    }

    method Published(id: nat, ok: bool)
      modifies this`files, this`finals, this`task
      ensures View() == PublishReturns(old(View()), id, ok)
    {
      if id !in files {
        task := Throwing;
      } else if !ok {
        finals := finals - {id};
        FinalizeFailed(id);
      } else {
        files := files[id := files[id].(published := true)];
        task := if failed || completed then CleaningFinal(id) else DigestingFinal(id);
      }
    }

    /** The end of maybeFinalize: the last check, the acknowledgement, and what follows. */
    method FinalDigested(id: nat, ok: bool)
      modifies this`files, this`task, this`sent, this`verified
      ensures View() == CheckFinal(old(View()), h, id, ok)
      ensures sent != old(sent) ==>
                && sent == old(sent) + [FileOk(id)] && !failed && !completed && channelOpen
                && id in files && files[id].done && id in finals && |finals[id]| == files[id].size
                && files[id].expectedSha == Some(h(finals[id]))
    {
      if !ok || id !in files || id !in finals || |finals[id]| != files[id].size {
        FinalizeFailed(id);
      } else if failed || completed || Some(h(finals[id])) != files[id].expectedSha {
        task := CleaningFinal(id);
      } else if !channelOpen {
        FinalizeFailed(id);
      } else {
        sent := sent + [FileOk(id)];
        verified := verified[id := h(finals[id])];
        files := files[id := files[id].(done := true)];
        MaybeResolveDone();
      }
    }

    /** sendControl with a word to the sender; a closed channel throws. */
    method Reply(m: Control, completes: bool)
      modifies this`task, this`sent, this`completed
      ensures completes ==> View() == SendThen(old(View()), m, Goto(old(View()), Idle).(completed := true))
      ensures !completes ==> View() == SendThen(old(View()), m, Goto(old(View()), Idle))
    {
      if channelOpen {
        sent := sent + [m];
        task := Idle;
        if completes {
          completed := true;
        }
      } else {
        task := Throwing;
      }
    }

    /** The catch of a handler: failTransfer. */
    method FailTransfer()
      modifies this`failed, this`task
      ensures View() == Caught(old(View()))
    {
      if !failed && !completed {
        failed := true;
      }
      task := Idle;
    }

    method Open(message: Message)
      modifies this`manifest, this`files, this`allDoneSeen, this`task
      ensures View() == match message case OnControl(m) => OpenControl(old(View()), cfg, m) case OnBulk(c) => OpenChunk(old(View()), c)
    {
      match message
      case OnControl(m) => OnControl(m);
      case OnBulk(c) => OnChunk(c);
    }

    method Fill(choice: Choice)
      requires task.Reserving? || task.Restarting? || task.Writing?
      modifies this`files, this`task
      ensures View() == WorkOn(old(View()), cfg, h, choice)
    {
      if !choice.ok {
        task := Throwing;
        return;
      }
      match task
      case Reserving(id, size) => Reserved(id, size, choice.partial);
      case Restarting(id) =>
        if id !in files {
          task := Throwing;
        } else {
          files := files[id := files[id].(hashed := [], disk := [], expectedSeq := 0)];
          task := Replying(Ready(id, 0, None));
        }
      case Writing(id, payload) =>
        if id !in files {
          task := Throwing;
        } else {
          files := files[id := files[id].(disk := files[id].disk + payload)];
          MaybeFinalize(id);
        }
    }

    /** The checks of maybeFinalize before there is a final file. */
    method Check(choice: Choice)
      requires task.EndingStream? || task.DigestingPart? || task.SealingOk?
      modifies this`files, this`task
      ensures View() == WorkOn(old(View()), cfg, h, choice)
    {
      var id := task.id;
      if failed || completed {
        FinalizeFailed(id);
        return;
      }
      match task
      case EndingStream(_) =>
        if choice.ok && id in files && Some(h(files[id].hashed)) == files[id].expectedSha {
          task := DigestingPart(id);
        } else {
          FinalizeFailed(id);
        }
      case DigestingPart(_) =>
        if choice.ok && id in files && |files[id].disk| == files[id].size && Some(h(files[id].disk)) == files[id].expectedSha {
          task := SealingOk(id);
        } else {
          FinalizeFailed(id);
        }
      case SealingOk(_) => task := Publishing(id);
    }

    method MakeFinal(choice: Choice)
      requires task.Publishing? || task.Linked? || task.DigestingFinal? || task.CleaningFinal?
      modifies this`files, this`finals, this`task, this`sent, this`verified
      ensures View() == WorkOn(old(View()), cfg, h, choice)
    {
      match task
      case Publishing(id) =>
        if choice.ok {
          PublishPart(id);
        } else {
          FinalizeFailed(id);
        }
      case Linked(id) => Published(id, choice.ok);
      case DigestingFinal(id) => FinalDigested(id, choice.ok);
      case CleaningFinal(id) =>
        RemovePublished(id);
        FinalizeFailed(id);
    }

    /** One step of the handler in flight. */
    method WorkOnce(choice: Choice)
      modifies this
      ensures View() == WorkOn(old(View()), cfg, h, choice)
    {
      match task
      case Idle =>
      case Opening(message) =>
        if !choice.ok || failed || completed {
          task := Throwing;
        } else {
          Open(message);
        }
      case Reserving(_, _) => Fill(choice);
      case Restarting(_) => Fill(choice);
      case Writing(_, _) => Fill(choice);
      case EndingStream(_) => Check(choice);
      case DigestingPart(_) => Check(choice);
      case SealingOk(_) => Check(choice);
      case Replying(reply) =>
        if failed || completed {
          task := Throwing;
        } else {
          Reply(reply, false);
        }
      case Resolving =>
        if failed || completed {
          task := Throwing;
        } else {
          Reply(AllDoneOk, true);
        }
      case Throwing => FailTransfer();
      case _ => MakeFinal(choice);
    }

    /**
     A step of the handler keeps what the receiver promises: all or nothing, honest
     acknowledgements, only what was accepted, and only bytes with the announced digest.
    */
    method SafeWork(choice: Choice)
      requires AllOrNothing.Inv(View()) && Acknowledgements.AckOk(View())
      requires AcceptedFiles.OnlyAccepted(View(), cfg) && Integrity.StreamOk(View(), h)
      modifies this
      ensures AllOrNothing.Inv(View()) && Acknowledgements.AckOk(View())
      ensures AcceptedFiles.OnlyAccepted(View(), cfg) && Integrity.StreamOk(View(), h)
      ensures View() == WorkOn(old(View()), cfg, h, choice)
    {
      WorkKeepsAll(View(), cfg, h, choice);
      WorkOnce(choice);
    }

    /**
     The loop after the transfer, removals succeeding, beside whatever handler is in flight.
     After a failure the only final file it can leave is the one that handler is just making.
    */
    method CleanUp()
      requires (failed || completed) && cleanup.NotStarted?
      requires AllOrNothing.Inv(View()) && Acknowledgements.AckOk(View())
      modifies this`files, this`finals
      ensures AllOrNothing.Inv(View()) && Acknowledgements.AckOk(View())
      ensures if completed then files == old(files) && finals == old(finals) else finals.Keys <= InHand(task)
      ensures completed ==> manifest.Some? && finals.Keys == Ids(manifest.value)
    {
      ghost var r := View();
      AllForgottenKeeps(r);
      RemoveAll();
    }

    method RemoveAll()
      requires (failed || completed) && (completed ==> !failed && AllFilesDone(View()))
      modifies this`files, this`finals
      ensures View() == if completed then old(View()) else Forgotten(old(View()), old(files.Keys))
    {
      ghost var r := View();
      NothingForgotten(r);
      var ids := files.Keys;
      while ids != {}
        invariant ids <= r.files.Keys && View() == if completed then r else Forgotten(r, r.files.Keys - ids)
        decreases ids
      {
        var id :| id in ids;
        var state := files[id];
        OneMoreForgotten(r, r.files.Keys - ids, id);
        assert r.files.Keys - ids + {id} == r.files.Keys - (ids - {id});
        if state.done && state.published && failed && !completed {
          RemovePublished(id);
        } else if !state.done {
          RemovePublished(id);
        }
        ids := ids - {id};
      }
    }

    /** After that, the handler in flight runs to its end, whatever its steps meet, and leaves no final file. */
    method FinishHandler(choices: nat -> Choice)
      requires failed && AllOrNothing.Inv(View()) && Acknowledgements.AckOk(View())
      requires finals.Keys <= InHand(task)
      modifies this
      ensures failed && task.Idle? && finals == map[]
    {
      var n := 0;
      while !task.Idle?
        invariant failed && AllOrNothing.Inv(View()) && Acknowledgements.AckOk(View()) && OnlyInHand(View())
        decreases TaskRank(task)
      {
        var choice := choices(n);
        WorkLowersRank(View(), cfg, h, choice);
        FailedWorkKeeps(View(), cfg, h, choice);
        Acknowledgements.BothKept(View(), cfg, h, Work(choice));
        WorkOnce(choice);
        n := n + 1;
      }
      assert finals.Keys == {};
    }
  }

  /** The final file that a handler is just making and has not remembered yet. */
  ghost function InHand(task: Task): set<nat> {
    if task.Linked? then {task.id} else {}
  }

  lemma WorkKeepsAll(r: Receiver, cfg: Config, h: Hash, choice: Choice)
    requires AllOrNothing.Inv(r) && Acknowledgements.AckOk(r)
    requires AcceptedFiles.OnlyAccepted(r, cfg) && Integrity.StreamOk(r, h)
    ensures var t := WorkOn(r, cfg, h, choice);
            && AllOrNothing.Inv(t) && Acknowledgements.AckOk(t)
            && AcceptedFiles.OnlyAccepted(t, cfg) && Integrity.StreamOk(t, h)
  {
    Acknowledgements.BothKept(r, cfg, h, Work(choice));
    AcceptedFiles.WorkAccepted(r, cfg, h, choice);
    Integrity.WorkSound(r, cfg, h, choice);
  }

  /** The only final files are those the handler in flight will remove. */
  ghost predicate OnlyInHand(r: Receiver) {
    forall id :: id in r.finals ==> r.task == Linked(id) || r.task == CleaningFinal(id)
  }

  /** Once the transfer has failed, a handler makes no final file but one it goes on to remove. */
  lemma FailedWorkKeeps(r: Receiver, cfg: Config, h: Hash, choice: Choice)
    requires r.failed && AllOrNothing.Inv(r) && OnlyInHand(r)
    ensures WorkOn(r, cfg, h, choice).failed && OnlyInHand(WorkOn(r, cfg, h, choice))
  {
    Agreement.WorkMoves(r, cfg, h, choice);
    if r.task.Linked? {
      LinkedKeeps(r, r.task.id, choice.ok);
    } else if r.task.CleaningFinal? {
      CleaningKeeps(r, r.task.id);
    }
  }

  lemma LinkedKeeps(r: Receiver, id: nat, ok: bool)
    requires r.failed && AllOrNothing.Inv(r) && OnlyInHand(r) && r.task == Linked(id)
    ensures OnlyInHand(PublishReturns(r, id, ok))
  {
  }

  lemma CleaningKeeps(r: Receiver, id: nat)
    requires r.failed && AllOrNothing.Inv(r) && OnlyInHand(r) && r.task == CleaningFinal(id)
    ensures OnlyInHand(GiveUp(Unpublish(r, id), id))
  {
  }

  /** What is left when the loop has visited these files after a failure. */
  ghost function Forgotten(r: Receiver, visited: set<nat>): Receiver {
    r.(files := map id | id in r.files :: if id in visited then r.files[id].(published := false) else r.files[id],
       finals := map id | id in r.finals && !(id in visited && id in r.files && r.files[id].published) :: r.finals[id])
  }

  lemma NothingForgotten(r: Receiver)
    ensures Forgotten(r, {}) == r
  {
    assert Forgotten(r, {}).files == r.files;
    assert Forgotten(r, {}).finals == r.finals;
  }

  lemma OneMoreForgotten(r: Receiver, visited: set<nat>, id: nat)
    requires id in r.files && id !in visited
    ensures Forgotten(r, visited + {id}) == Unpublish(Forgotten(r, visited), id)
  {
    assert Forgotten(r, visited + {id}).files == Unpublish(Forgotten(r, visited), id).files;
    assert Forgotten(r, visited + {id}).finals == Unpublish(Forgotten(r, visited), id).finals;
  }

  /** After a failure all files can be forgotten; after completion nothing may be, and all are there. */
  lemma AllForgottenKeeps(r: Receiver)
    requires AllOrNothing.Inv(r) && Acknowledgements.AckOk(r) && (r.failed || r.completed) && r.cleanup.NotStarted?
    ensures if r.completed then
              !r.failed && AllFilesDone(r) && r.manifest.Some? && r.finals.Keys == Ids(r.manifest.value)
            else
              var t := Forgotten(r, r.files.Keys);
              AllOrNothing.Inv(t) && Acknowledgements.AckOk(t) && t.finals.Keys <= InHand(t.task)
  {
    if r.completed {
      Acknowledgements.CompletedPublished(r);
    } else {
      ForgottenSafe(r);
      Acknowledgements.SilentKeeps(r, Forgotten(r, r.files.Keys));
    }
  }

  lemma ForgottenSafe(r: Receiver)
    requires AllOrNothing.Inv(r) && r.failed && r.cleanup.NotStarted?
    ensures AllOrNothing.Inv(Forgotten(r, r.files.Keys)) && Forgotten(r, r.files.Keys).finals.Keys <= InHand(r.task)
  {
    assert Forgotten(r, r.files.Keys).files.Keys == r.files.Keys;
  }
}
