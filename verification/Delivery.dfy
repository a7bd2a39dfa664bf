/**
 The delivery theorem: as long as nothing from outside interferes, every interleaving of the
 two ends and the three queues delivers every file, and no check on either side ever fails.
*/
module Delivery {
  import opened Prelude
  import opened Frames
  import opened SenderMachine
  import opened ReceiverMachine
  import opened Agreement
  import opened Settling
  import opened Stages

  function Step(w: World, n: Net, e: NetEvent): Net { NetStep(n, w.plan, w.cfg, w.h, e) }

  function Run(w: World, events: seq<NetEvent>): Net { NetRun(w.plan, w.cfg, w.h, events) }

  // ----- the sender's steps -----

  lemma CheckingProceeds(w: World, f: nat, n: Net)
    requires GoodWorld(w) && At(w, Checking(f), n)
    ensures At(w, AfterProceeds(w, Checking(f)), Step(w, n, SenderProceeds))
  {
    ResumedFits(w, f);
    var offer := OfferOf(w, f);
    assert n.s.readyStates == map[f := offer] && ReadyOf(n.s, f) == offer;
    assert n.s.readyStates - {f} == map[];
    if Trusted(w, f) {
      TrustedIsPartial(w, f);
      assert VerifyReady(n.s, w.plan, w.h, f).0.pc == Streaming(f, StartOf(w, f));
    } else {
      assert n.s.pending + {ReadyAck(f)} == {ReadyAck(f)};
    }
  }

  lemma CheckingAgainProceeds(w: World, f: nat, n: Net)
    requires At(w, CheckingAgain(f), n)
    ensures At(w, Flowing(f, 0, 0, false), Step(w, n, SenderProceeds))
  {
    assert n.s.readyStates - {f} == map[];
    assert ReadyOf(n.s, f) == ReadyState(0, None);
    assert StartSeq(Size(w.plan, f), 0) == 0;
  }

  lemma FlowingProceeds(w: World, st: Stage, n: Net)
    requires st.Flowing? && At(w, st, n)
    ensures At(w, AfterProceeds(w, st), Step(w, n, SenderProceeds))
  {
    if st.holding {
      ChunksLast(w, st.f, st.i, st.j);
    } else if st.j == Chunks(w, st.f) {
      assert n.s.pending + {FileOkAck(st.f)} == {FileOkAck(st.f)};
    }
  }

  lemma ProceedsStage(w: World, st: Stage, n: Net)
    requires GoodWorld(w) && At(w, st, n)
    ensures At(w, AfterProceeds(w, st), Step(w, n, SenderProceeds))
    ensures AfterProceeds(w, st) == st ==> Step(w, n, SenderProceeds) == n
  {
    match st
    case Fresh => EarlyProceeds(w, st, n);
    case Begin(_, _) => EarlyProceeds(w, st, n);
    case Checking(f) => CheckingProceeds(w, f, n);
    case CheckingAgain(f) => CheckingAgainProceeds(w, f, n);
    case Flowing(_, _, _, _) => FlowingProceeds(w, st, n);
    case _ =>
      assert !CanAdvance(n.s);
      assert n.control + [] == n.control && n.bulk + [] == n.bulk;
  }

  lemma EarlyProceeds(w: World, st: Stage, n: Net)
    requires GoodWorld(w) && At(w, st, n) && (st.Fresh? || st.Begin?)
    ensures At(w, AfterProceeds(w, st), Step(w, n, SenderProceeds))
  {
    if st.Begin? {
      assert n.s.pending + {ReadyAck(st.f)} == {ReadyAck(st.f)};
      assert n.s.pending + {AllDoneAck} == {AllDoneAck};
    } else {
      assert [] + Announcement(w, false) == Announcement(w, false);
    }
  }

  lemma OfferTaken(w: World, st: Stage, n: Net)
    requires (st.Offered? || st.OfferedAgain?) && GoodWorld(w) && At(w, st, n)
    ensures At(w, AfterSenderTakes(st), Step(w, n, SenderTakes))
  {
    ResumedFits(w, st.f);
    assert |w.plan[st.f].content| <= MAX_FILE_BYTES;
    assert n.s.pending - {ReadyAck(st.f)} == {};
    assert n.back[1..] == [];
  }

  lemma SenderTakesStage(w: World, st: Stage, n: Net)
    requires GoodWorld(w) && At(w, st, n)
    ensures At(w, AfterSenderTakes(st), Step(w, n, SenderTakes))
    ensures AfterSenderTakes(st) == st ==> Step(w, n, SenderTakes) == n
  {
    if st.Offered? || st.OfferedAgain? {
      OfferTaken(w, st, n);
    } else if st.Confirmed? {
      assert n.s.pending - {FileOkAck(st.f)} == {};
      assert n.back[1..] == [];
    } else if st.LastOffered? {
      assert n.s.pending - {AllDoneAck} == {};
      assert n.back[1..] == [];
    }
  }

  // ----- the receiver's steps -----

  /** The pair once the task in flight has run to its end. */
  function Settled(w: World, n: Net): Net {
    var t := Settle(w, n.r);
    n.(r := t, back := n.back + NewlySent(n.r, t))
  }

  /** The receiver took the first control message, and ended as `t`. */
  lemma TookControl(w: World, n: Net, t: Receiver, words: seq<Control>)
    requires n.control != [] && n.r.task.Idle? && !Stopped(n.r)
    requires Settle(w, Goto(n.r, Opening(OnControl(n.control[0])))) == t && t.sent == n.r.sent + words
    ensures Settled(w, Step(w, n, ReceiverTakesControl)) == n.(r := t, control := n.control[1..], back := n.back + words)
  {
    assert NewlySent(n.r, t) == words;
  }

  lemma TakesManifest(w: World, st: Stage, n: Net)
    requires GoodWorld(w) && At(w, st, n) && (st.Begin? || st.Asked?) && !st.seen
    ensures At(w, st.(seen := true), Settled(w, Step(w, n, ReceiverTakesControl)))
  {
    var r := Goto(n.r, Opening(OnControl(n.control[0])));
    assert n.control[0] == Manifest(EntriesOf(w.plan));
    assert Acceptable(w.cfg, EntriesOf(w.plan));
    SettleManifest(w, r);
    TookControl(w, n, Settle(w, r), []);
    assert n.control[1..] == ControlOf(w, st.(seen := true));
  }

  lemma TakesFileBegin(w: World, f: nat, n: Net)
    requires At(w, Asked(f, true), n)
    ensures At(w, Offered(f), Settled(w, Step(w, n, ReceiverTakesControl)))
  {
    var r := Goto(n.r, Opening(OnControl(n.control[0])));
    assert n.control == [BeginMessage(w, f)];
    DoneFilesAre(w, f);
    SettleFileBegin(w, r, f);
    TookControl(w, n, Settle(w, r), [ReadyFor(w, f)]);
  }

  lemma TakesRestart(w: World, f: nat, n: Net)
    requires At(w, AskedAgain(f), n)
    ensures At(w, OfferedAgain(f), Settled(w, Step(w, n, ReceiverTakesControl)))
  {
    var r := Goto(n.r, Opening(OnControl(n.control[0])));
    SettleRestart(w, r, f);
    TookControl(w, n, Settle(w, r), [Ready(f, 0, None)]);
    assert PartialState(w, f, 0, false) == ResumedState(w, f).(hashed := [], disk := [], expectedSeq := 0);
    assert DoneFiles(w, f)[f := ResumedState(w, f)][f := PartialState(w, f, 0, false)] == DoneFiles(w, f)[f := PartialState(w, f, 0, false)];
  }

  /** Finalizing the file at hand makes it one of the done ones. */
  lemma FinalizeAt(w: World, f: nat, r: Receiver)
    requires f < |w.plan|
    requires r == Goto(ReceiverAt(w, true, f, Some(PartialState(w, f, Chunks(w, f), true)), false, r.sent), r.task)
    ensures Settle(w, Finalize(r, f)) == ReceiverAt(w, true, f + 1, None, false, r.sent + [FileOk(f)])
  {
    WholePartial(w, f, true);
    SettleFinalize(w, r, f);
    var state := r.files[f];
    var t := Put(r, f, state.(finalizing := true));
    assert state.(finalizing := true, published := true, done := true) == DoneState(w, f);
    assert t.files[f := DoneState(w, f)] == DoneFiles(w, f + 1);
  }

  /** The digest arrives: with the last chunk still under way, or after it. */
  lemma TakesFileEnd(w: World, f: nat, i: nat, n: Net)
    requires At(w, Ending(f, i, false), n)
    ensures At(w, AfterTakesControl(w, Ending(f, i, false)), Settled(w, Step(w, n, ReceiverTakesControl)))
  {
    var r := Goto(n.r, Opening(OnControl(n.control[0])));
    SettleFileEnd(w, r, f, Sha(w.h, w.plan, f));
    var t := Put(r, f, r.files[f].(expectedSha := Some(Sha(w.h, w.plan, f))));
    assert r.files[f].(expectedSha := Some(Sha(w.h, w.plan, f))) == PartialState(w, f, i, true);
    assert DoneFiles(w, f)[f := PartialState(w, f, i, false)][f := PartialState(w, f, i, true)] == DoneFiles(w, f)[f := PartialState(w, f, i, true)];
    assert t == Goto(ReceiverAt(w, true, f, Some(PartialState(w, f, i, true)), false, r.sent), r.task);
    if i < Chunks(w, f) {
      NextPartial(w, f, i, true);
      SettleWaiting(w, t, f);
      TookControl(w, n, Settle(w, r), []);
    } else {
      FinalizeAt(w, f, t);
      TookControl(w, n, Settle(w, r), [FileOk(f)]);
    }
  }

  lemma AllPlanned(w: World)
    ensures |DoneFiles(w, |w.plan|)| == |Ids(EntriesOf(w.plan))|
    ensures forall id :: id in DoneFiles(w, |w.plan|) ==> DoneFiles(w, |w.plan|)[id].done
  {
    PlanIds(w.plan);
    DoneFilesAre(w, |w.plan|);
    DoneFilesCount(w, |w.plan|);
    assert Ids(EntriesOf(w.plan)) == DoneFiles(w, |w.plan|).Keys;
    assert |DoneFiles(w, |w.plan|).Keys| == |DoneFiles(w, |w.plan|)|;
  }

  lemma TakesAllDone(w: World, n: Net)
    requires At(w, LastAsked, n)
    ensures At(w, LastOffered, Settled(w, Step(w, n, ReceiverTakesControl)))
  {
    var r := Goto(n.r, Opening(OnControl(n.control[0])));
    AllPlanned(w);
    SettleAllDone(w, r);
    TookControl(w, n, Settle(w, r), [AllDoneOk]);
  }

  lemma TakesControlStage(w: World, st: Stage, n: Net)
    requires GoodWorld(w) && At(w, st, n)
    ensures At(w, AfterTakesControl(w, st), Settled(w, Step(w, n, ReceiverTakesControl)))
  {
    match st
    case Begin(f, seen) => TakesControlEarly(w, st, n);
    case Asked(f, seen) => TakesControlEarly(w, st, n);
    case AskedAgain(f) => TakesRestart(w, f, n);
    case Ending(f, i, told) =>
      if told {
        NothingTaken(w, st, n);
      } else {
        TakesFileEnd(w, f, i, n);
      }
    case LastAsked => TakesAllDone(w, n);
    case _ => NothingTaken(w, st, n);
  }

  lemma TakesControlEarly(w: World, st: Stage, n: Net)
    requires GoodWorld(w) && At(w, st, n) && (st.Begin? || st.Asked?)
    ensures At(w, AfterTakesControl(w, st), Settled(w, Step(w, n, ReceiverTakesControl)))
  {
    if !st.seen {
      TakesManifest(w, st, n);
    } else if st.Asked? {
      TakesFileBegin(w, st.f, n);
    } else {
      NothingTaken(w, st, n);
    }
  }

  lemma NothingTaken(w: World, st: Stage, n: Net)
    requires At(w, st, n) && ControlOf(w, st) == []
    ensures Settled(w, Step(w, n, ReceiverTakesControl)) == n
  {
    assert n.back + [] == n.back;
  }

  // ----- chunks -----

  /** The receiver took the first chunk, and ended as `t`. */
  lemma TookChunk(w: World, n: Net, t: Receiver, words: seq<Control>)
    requires n.bulk != [] && n.r.task.Idle? && !Stopped(n.r)
    requires Settle(w, Goto(n.r, Opening(OnBulk(n.bulk[0])))) == t && t.sent == n.r.sent + words
    ensures Settled(w, Step(w, n, ReceiverTakesChunk)) == n.(r := t, bulk := n.bulk[1..], back := n.back + words)
  {
    assert NewlySent(n.r, t) == words;
  }

  /** What the next chunk makes of a receiver whose file at hand has `i` chunks. */
  lemma ChunkTaken(w: World, f: nat, i: nat, told: bool, r: Receiver)
    requires f < |w.plan| && i < Chunks(w, f)
    requires r == ReceiverAt(w, true, f, Some(PartialState(w, f, i, told)), false, r.sent)
    ensures Settle(w, Goto(r, Opening(OnBulk(ChunkAt(w, f, i))))) ==
              if told && i + 1 == Chunks(w, f) then ReceiverAt(w, true, f + 1, None, false, r.sent + [FileOk(f)])
              else ReceiverAt(w, true, f, Some(PartialState(w, f, i + 1, told)), false, r.sent)
  {
    var payload := ChunkOf(Content(w.plan, f), i);
    NextPartial(w, f, i, told);
    SettleChunk(w, Goto(r, Opening(OnBulk(ChunkAt(w, f, i)))), f, payload);
    var t := Goto(Put(r, f, PartialState(w, f, i + 1, told)), Writing(f, payload));
    assert DoneFiles(w, f)[f := PartialState(w, f, i, told)][f := PartialState(w, f, i + 1, told)] == DoneFiles(w, f)[f := PartialState(w, f, i + 1, told)];
    assert t == Goto(ReceiverAt(w, true, f, Some(PartialState(w, f, i + 1, told)), false, r.sent), t.task);
    if told && i + 1 == Chunks(w, f) {
      FinalizeAt(w, f, t);
    } else {
      if told {
        NextPartial(w, f, i + 1, told);
      }
      SettleWaiting(w, t, f);
    }
  }

  /** A chunk that leaves the sender as it is. */
  lemma ChunkMoves(w: World, st: Stage, next: Stage, n: Net, t: Receiver, words: seq<Control>)
    requires At(w, st, n) && n.bulk != [] && !Stopped(n.r) && n.r.task.Idle?
    requires Settle(w, Goto(n.r, Opening(OnBulk(n.bulk[0])))) == t && t.sent == n.r.sent + words
    requires StageOk(w, next) && n.s == SenderOf(w, next, n.s) && t == ReceiverOf(w, next, t.sent)
    requires n.control == ControlOf(w, next) && n.bulk[1..] == BulkOf(w, next) && n.back + words == BackOf(w, next)
    ensures At(w, next, Settled(w, Step(w, n, ReceiverTakesChunk)))
  {
    TookChunk(w, n, t, words);
  }

  lemma TakesChunkFlowing(w: World, f: nat, i: nat, j: nat, holding: bool, n: Net)
    requires At(w, Flowing(f, i, j, holding), n) && i < j
    ensures At(w, Flowing(f, i + 1, j, holding), Settled(w, Step(w, n, ReceiverTakesChunk)))
  {
    ChunksHead(w, f, i, j);
    ChunkTaken(w, f, i, false, n.r);
    ChunkMoves(w, Flowing(f, i, j, holding), Flowing(f, i + 1, j, holding), n,
               Settle(w, Goto(n.r, Opening(OnBulk(n.bulk[0])))), []);
  }

  lemma TakesChunkEnding(w: World, f: nat, i: nat, told: bool, n: Net)
    requires At(w, Ending(f, i, told), n) && i < Chunks(w, f) && !(told && i + 1 == Chunks(w, f))
    ensures At(w, Ending(f, i + 1, told), Settled(w, Step(w, n, ReceiverTakesChunk)))
  {
    ChunksHead(w, f, i, Chunks(w, f));
    ChunkTaken(w, f, i, told, n.r);
    ChunkMoves(w, Ending(f, i, told), Ending(f, i + 1, told), n, Settle(w, Goto(n.r, Opening(OnBulk(n.bulk[0])))), []);
  }

  lemma TakesLastChunk(w: World, f: nat, i: nat, n: Net)
    requires At(w, Ending(f, i, true), n) && i + 1 == Chunks(w, f)
    ensures At(w, Confirmed(f), Settled(w, Step(w, n, ReceiverTakesChunk)))
  {
    ChunksHead(w, f, i, Chunks(w, f));
    ChunkTaken(w, f, i, true, n.r);
    ChunkMoves(w, Ending(f, i, true), Confirmed(f), n, Settle(w, Goto(n.r, Opening(OnBulk(n.bulk[0])))), [FileOk(f)]);
  }

  lemma TakesChunkStage(w: World, st: Stage, n: Net)
    requires At(w, st, n)
    ensures At(w, AfterTakesChunk(w, st), Settled(w, Step(w, n, ReceiverTakesChunk)))
  {
    if n.bulk == [] {
      NoChunk(w, n);
      NoChunkNoChange(w, st);
    } else {
      SomeChunk(w, st, n);
    }
  }

  lemma NoChunkNoChange(w: World, st: Stage)
    requires StageOk(w, st) && BulkOf(w, st) == []
    ensures AfterTakesChunk(w, st) == st
  {
  }

  lemma SomeChunk(w: World, st: Stage, n: Net)
    requires At(w, st, n) && n.bulk != []
    ensures At(w, AfterTakesChunk(w, st), Settled(w, Step(w, n, ReceiverTakesChunk)))
  {
    if st.Flowing? {
      TakesChunkFlowing(w, st.f, st.i, st.j, st.holding, n);
    } else if st.told && st.i + 1 == Chunks(w, st.f) {
      TakesLastChunk(w, st.f, st.i, n);
    } else {
      TakesChunkEnding(w, st.f, st.i, st.told, n);
    }
  }

  lemma NoChunk(w: World, n: Net)
    requires n.bulk == [] && n.r.task.Idle?
    ensures Settled(w, Step(w, n, ReceiverTakesChunk)) == n
  {
    assert n.back + [] == n.back;
  }
}
