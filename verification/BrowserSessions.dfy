/** The browser's sender as an object: the fields of a sender and the variables of its loop over one file. */
module BrowserSessions {
  import opened Prelude
  import opened Frames
  import opened SenderMachine
  import opened TransferSessions
  import opened BrowserSender

  class BrowserSession {
    const session: SendSession
    var resume: nat
    var offset: nat
    var fileBytes: nat
    var skippedBytes: nat
    var hashed: Bytes
    var payload: Bytes

    constructor (plan: seq<SendFile>, h: Hash)
      ensures View() == INITIAL_BROWSER && session.plan == plan && session.h == h
      ensures session.Valid() && fresh(session) && fresh(session.acks)
    {
      session := new SendSession(plan, h);
      resume, offset, fileBytes, skippedBytes, hashed, payload := 0, 0, 0, 0, [], [];
    }

    ghost function View(): Browser
      reads this, session, session.acks
    {
      Browser(session.View(), Loop(resume, offset, fileBytes, skippedBytes, hashed, payload))
    }

    /** verifiedBrowserReadyState; a short read throws first, since nobody looks at the ready state after it. */
    method VerifyReadyState(f: nat, read: Bytes) returns (out: Output)
      requires session.Coupled() && !session.failed && session.pc == Verifying(f)
      modifies this, session`pc, session`readyStates, session`restartLog, session.acks
      ensures session.Coupled()
      ensures (View(), out) == VerifyBrowser(old(View()), session.plan, session.h, f, read)
    {
      var ready := if f in session.readyStates then session.readyStates[f] else ReadyState(0, None);
      if ValidOffset(Size(session.plan, f), ready.offset) && ready.offset > 0 && |read| != ready.offset {
        out := session.ThrowError();
        return;
      }
      session.readyStates := session.readyStates - {f};
      if !ValidOffset(Size(session.plan, f), ready.offset) {
        out := session.ThrowError();
      } else if ready.offset == 0 || ready.prefix == Some(session.h(read)) {
        StartFile(f, ready.offset);
        out := NOTHING;
      } else {
        out := AskRestart(f);
      }
    }

    method StartFile(f: nat, resumeOffset: nat)
      modifies this, session`pc
      ensures Loop(resume, offset, fileBytes, skippedBytes, hashed, payload) == StartLoop(resumeOffset)
      ensures session.pc == Streaming(f, 0)
    {
      session.pc := Streaming(f, 0);
      resume, offset, fileBytes, skippedBytes, hashed, payload := resumeOffset, 0, 0, 0, [], [];
    }

    method AskRestart(f: nat) returns (out: Output)
      requires session.Coupled() && !session.failed && !session.pc.Threw?
      modifies session`pc, session`restartLog, session.acks
      ensures session.Coupled() && out == Output([Restart(f)], [])
      ensures var s := old(session.View());
              session.View() == s.(pc := AwaitRestart(f), pending := s.pending + {ReadyAck(f)}, restartLog := s.restartLog + [f])
    {
      session.Arm(ReadyAck(f));
      session.pc := AwaitRestart(f);
      session.restartLog := session.restartLog + [f];
      out := Output([Restart(f)], []);
    }

    /** One turn of the loop over chunks up to its next await. */
    method ReadChunk(f: nat, k: nat, read: Bytes) returns (out: Output)
      requires session.Coupled() && !session.failed && session.pc == Streaming(f, k) && offset < Size(session.plan, f)
      modifies this, session`pc, session`sealLog
      ensures session.Coupled()
      ensures (View(), out) == ReadNext(old(View()), session.plan, session.h, f, k, read)
    {
      var p := FilePlan(session.plan, session.h, f);
      if |read| != Min(CHUNK_SIZE, p.size - offset) || fileBytes + |read| > p.size
         || k >= |p.chunkSha256| || session.h(read) != p.chunkSha256[k] {
        out := session.ThrowError();
        return;
      }
      hashed := hashed + read;
      out := NOTHING;
      if skippedBytes < resume {
        skippedBytes := skippedBytes + |read|;
        NextChunk(f, k, |read|);
      } else {
        session.sealLog := session.sealLog + [(f, k)];
        session.pc := Sealed(f, k);
        payload := read;
      }
    }

    method NextChunk(f: nat, k: nat, length: nat)
      modifies this`fileBytes, this`offset, session`pc
      ensures fileBytes == old(fileBytes) + length && offset == old(offset) + CHUNK_SIZE && session.pc == Streaming(f, k + 1)
    {
      session.pc := Streaming(f, k + 1);
      fileBytes := fileBytes + length;
      offset := offset + CHUNK_SIZE;
    }

    /** What follows the last turn. */
    method FinishFile(f: nat, k: nat) returns (out: Output)
      requires session.Coupled() && !session.failed && session.pc == Streaming(f, k) && offset >= Size(session.plan, f)
      modifies session, session.acks
      ensures session.Coupled()
      ensures (View(), out) == ReadNext(old(View()), session.plan, session.h, f, k, [])
    {
      var p := FilePlan(session.plan, session.h, f);
      if k != |p.chunkSha256| || fileBytes != p.size || session.h(hashed) != p.sha256 {
        out := session.ThrowError();
      } else {
        session.Arm(FileOkAck(f));
        session.pc := AwaitFileOk(f);
        out := Output([FileEnd(f, session.h(hashed))], []);
      }
    }

    method Step(read: Bytes) returns (out: Output)
      requires session.Coupled()
      modifies this, session, session.acks
      ensures session.Coupled()
      ensures (View(), out) == BrowserAdvance(old(View()), session.plan, session.h, read)
    {
      if session.failed {
        out := session.NextStep();
        return;
      }
      match session.pc
      case Verifying(f) => out := VerifyReadyState(f, read);
      case Streaming(f, k) =>
        if offset < Size(session.plan, f) {
          out := ReadChunk(f, k, read);
        } else {
          out := FinishFile(f, k);
        }
      case Sealed(f, k) =>
        NextChunk(f, k, |payload|);
        out := Output([], [Chunk(f, k, payload)]);
      case _ => out := session.NextStep();
    }

    /** One step of sendBrowserFiles: the machine's next step, or a chunk skipped, or a changed file noticed. */
    method Proceed(read: Bytes) returns (out: Output)
      requires session.Coupled() && LoopOk(View(), session.plan) && Undeceived(View(), session.plan, session.h, read)
      modifies this, session, session.acks
      ensures session.Coupled() && LoopOk(View(), session.plan)
      ensures (Seen(View(), session.plan), out) ==
                Follow(old(Seen(View(), session.plan)), session.plan, session.h,
                       old(ShadowOf(View(), session.plan, session.h, read)))
    {
      AdvanceMirrors(View(), session.plan, session.h, read);
      out := Step(read);
    }
  }
}
