/** What a receiver says: what it offers to resume from, and nothing on a closed channel. */
module Replies {
  import opened Prelude
  import opened Frames
  import opened SenderMachine
  import opened ReceiverMachine
  import opened AllOrNothing
  import opened Acknowledgements

  /**
   A reserved file begins with the greatest prefix of the partial file found that is a valid offset,
   if the receiver was asked to resume, and empty otherwise; the sender is told its length and digest.
  */
  lemma ReserveOutcome(r: Receiver, cfg: Config, h: Hash, id: nat, size: nat, partial: Bytes)
    ensures var t := Reserve(r, cfg, h, id, size, partial);
            && t.task.Replying? && t.task.reply.Ready? && t.task.reply.id == id
            && var n := t.task.reply.offset;
            && n <= |partial| && ValidOffset(size, n) && (!cfg.resume ==> n == 0)
            && (cfg.resume ==> forall other: nat :: ValidOffset(size, other) && other <= |partial| ==> other <= n)
            && (if n == 0 then t.task.reply.prefix.None? else t.task.reply.prefix == Some(h(partial[..n])))
            && t.files.Keys == r.files.Keys + {id} && t.files[id].size == size
            && t.files[id].hashed == partial[..n] && t.files[id].disk == partial[..n]
  {
    ResumeIsGreatest(CHUNK_SIZE, |partial|, size);
    ResumeIsGreatest(CHUNK_SIZE, 0, size);
  }

  // ----- over every run -----

  /** An offset is offered only by a receiver that was asked to resume, with a digest of what it has. */
  predicate SoundOffer(cfg: Config, m: Control) {
    m.Ready? ==> (m.offset > 0 ==> cfg.resume) && (m.prefix.Some? <==> m.offset > 0)
  }

  predicate SoundReply(cfg: Config, task: Task) { task.Replying? ==> SoundOffer(cfg, task.reply) }

  ghost predicate OffersSound(r: Receiver, cfg: Config) {
    SoundReply(cfg, r.task) && forall i :: 0 <= i < |r.sent| ==> SoundOffer(cfg, r.sent[i])
  }

  /** On a closed channel nothing is said, and what is not said is not done. */
  predicate Quiet(r: Receiver, t: Receiver) {
    t.channelOpen == r.channelOpen && (!r.channelOpen ==> t.sent == r.sent && t.completed == r.completed)
  }

  predicate Discreet(r: Receiver, t: Receiver) { !t.task.Replying? && Quiet(r, t) }

  lemma EndsDiscreetly(r: Receiver, id: nat)
    ensures Discreet(r, ResolveDone(r)) && Discreet(r, Finalize(r, id)) && Discreet(r, GiveUp(r, id))
  {
  }

  lemma OpensDiscreetly(r: Receiver, cfg: Config, h: Hash, choice: Choice)
    requires r.task.Opening?
    ensures Discreet(r, WorkOn(r, cfg, h, choice))
  {
    if choice.ok && !Stopped(r) && r.task.message.OnControl? {
      TakesDiscreetly(r, cfg, r.task.message.control);
    }
  }

  lemma TakesDiscreetly(r: Receiver, cfg: Config, m: Control)
    ensures Discreet(r, OpenControl(r, cfg, m))
  {
    if m.FileEnd? {
      FileEndDiscreetly(r, m.id, m.sha256);
    } else if m.AllDone? {
      AllDoneDiscreetly(r);
    } else {
      OthersDiscreetly(r, cfg, m);
    }
  }

  lemma FileEndDiscreetly(r: Receiver, id: nat, sha256: Digest)
    ensures Discreet(r, OpenFileEnd(r, id, sha256))
  {
    if id in r.files {
      EndsDiscreetly(Put(r, id, r.files[id].(expectedSha := Some(sha256))), id);
    }
  }

  lemma AllDoneDiscreetly(r: Receiver)
    ensures Discreet(r, OpenAllDone(r))
  {
    EndsDiscreetly(r.(allDoneSeen := true), 0);
  }

  lemma OthersDiscreetly(r: Receiver, cfg: Config, m: Control)
    requires !m.FileEnd? && !m.AllDone?
    ensures Discreet(r, OpenControl(r, cfg, m))
  {
  }

  lemma WritesDiscreetly(r: Receiver, id: nat, payload: Bytes)
    ensures Discreet(r, Write(r, id, payload))
  {
    if id in r.files {
      EndsDiscreetly(Put(r, id, r.files[id].(disk := r.files[id].disk + payload)), id);
    }
  }

  lemma ChecksDiscreetly(r: Receiver, h: Hash, id: nat, ok: bool)
    ensures Discreet(r, CheckFinal(r, h, id, ok)) && Discreet(r, PublishReturns(r, id, ok))
  {
  }

  lemma FinalizesDiscreetly(r: Receiver, cfg: Config, h: Hash, choice: Choice)
    requires r.task.EndingStream? || r.task.DigestingPart? || r.task.SealingOk? || r.task.Publishing?
    ensures Discreet(r, WorkOn(r, cfg, h, choice))
  {
    EndsDiscreetly(r, r.task.id);
  }

  lemma PublishesDiscreetly(r: Receiver, cfg: Config, h: Hash, choice: Choice)
    requires r.task.Linked? || r.task.DigestingFinal? || r.task.CleaningFinal?
    ensures Discreet(r, WorkOn(r, cfg, h, choice))
  {
    if r.task.CleaningFinal? {
      EndsDiscreetly(Unpublish(r, r.task.id), r.task.id);
    } else {
      ChecksDiscreetly(r, h, r.task.id, choice.ok);
    }
  }

  lemma SaysDiscreetly(r: Receiver, cfg: Config, h: Hash, choice: Choice)
    requires r.task.Idle? || r.task.Replying? || r.task.Resolving? || r.task.Throwing?
    ensures Discreet(r, WorkOn(r, cfg, h, choice))
  {
  }

  lemma ReadyingReplies(r: Receiver, cfg: Config, h: Hash, choice: Choice)
    requires r.task.Reserving? || r.task.Restarting?
    ensures var t := WorkOn(r, cfg, h, choice);
            SoundReply(cfg, t.task) && Quiet(r, t)
  {
    if r.task.Reserving? {
      ReserveOutcome(r, cfg, h, r.task.id, r.task.size, choice.partial);
    }
  }

  lemma WorkReplies(r: Receiver, cfg: Config, h: Hash, choice: Choice)
    ensures var t := WorkOn(r, cfg, h, choice);
            SoundReply(cfg, t.task) && Quiet(r, t)
  {
    if r.task.Opening? {
      OpensDiscreetly(r, cfg, h, choice);
    } else if r.task.Reserving? || r.task.Restarting? {
      ReadyingReplies(r, cfg, h, choice);
    } else if r.task.Writing? {
      if choice.ok {
        WritesDiscreetly(r, r.task.id, r.task.payload);
      }
    } else if r.task.Idle? || r.task.Replying? || r.task.Resolving? || r.task.Throwing? {
      SaysDiscreetly(r, cfg, h, choice);
    } else if r.task.Linked? || r.task.DigestingFinal? || r.task.CleaningFinal? {
      PublishesDiscreetly(r, cfg, h, choice);
    } else {
      FinalizesDiscreetly(r, cfg, h, choice);
    }
  }

  lemma StepReplies(r: Receiver, cfg: Config, h: Hash, e: ReceiverEvent)
    requires SoundReply(cfg, r.task)
    ensures SoundReply(cfg, ReceiverStep(r, cfg, h, e).task)
  {
    if e.Work? {
      WorkReplies(r, cfg, h, e.choice);
    }
  }

  lemma StepOffers(r: Receiver, cfg: Config, h: Hash, e: ReceiverEvent)
    requires TaskOk(r) && OffersSound(r, cfg)
    ensures OffersSound(ReceiverStep(r, cfg, h, e), cfg)
  {
    StepKind(r, cfg, h, e);
    StepReplies(r, cfg, h, e);
  }

  /**
   Over every run: a receiver that was not asked to resume never says that it has anything, and
   one that was says so only together with the digest of what it has.
  */
  lemma {:induction false} OffersAreAsked(cfg: Config, h: Hash, events: seq<ReceiverEvent>)
    ensures OffersSound(ReceiverRun(cfg, h, events), cfg)
  {
    if events != [] {
      var before := events[..|events| - 1];
      OffersAreAsked(cfg, h, before);
      EveryRunKeeps(cfg, h, before);
      StepOffers(ReceiverRun(cfg, h, before), cfg, h, events[|events| - 1]);
    }
  }

  lemma ClosedStays(r: Receiver, cfg: Config, h: Hash, e: ReceiverEvent)
    requires !r.channelOpen || e.ChannelCloses?
    ensures var t := ReceiverStep(r, cfg, h, e); !t.channelOpen && t.sent == r.sent && t.completed == r.completed
  {
    if e.Work? {
      WorkReplies(r, cfg, h, e.choice);
    }
  }

  /** Once a channel closes, nothing that happens later says another word, acknowledges or completes anything. */
  lemma {:induction false} SilentOnceClosed(cfg: Config, h: Hash, events: seq<ReceiverEvent>, later: seq<ReceiverEvent>)
    requires later != [] && later[0].ChannelCloses?
    ensures var r, t := ReceiverRun(cfg, h, events), ReceiverRun(cfg, h, events + later);
            !t.channelOpen && t.sent == r.sent && t.completed == r.completed
    decreases |later|
  {
    var before, last := later[..|later| - 1], later[|later| - 1];
    assert (events + later)[..|events + later| - 1] == events + before;
    if before == [] {
      assert events + before == events;
    } else {
      SilentOnceClosed(cfg, h, events, before);
    }
    ClosedStays(ReceiverRun(cfg, h, events + before), cfg, h, last);
  }

  // ----- the size of what is published -----

  /** Whatever happens to partial files: only one of the announced size is published, as it is then. */
  lemma PublishOutcome(r: Receiver, cfg: Config, h: Hash, choice: Choice)
    requires r.task.Publishing? && r.task.id in r.files
    ensures var id, t := r.task.id, WorkOn(r, cfg, h, choice);
            var fits := choice.ok && |r.files[id].disk| == r.files[id].size;
            && (t.task == Linked(id) <==> fits) && (!fits ==> t.task.Throwing?)
            && t.finals == (if fits then r.finals[id := r.files[id].disk] else r.finals)
  {
  }
}
