/**
 What one message does to a receiver when nothing goes wrong: the task it starts, run to its end.

 `Settle` finishes the task in flight. While nothing fails, a receiver is as good as settled:
 the steps still ahead of it are determined.
*/
module Settling {
  import opened Prelude
  import opened Frames
  import opened SenderMachine
  import opened ReceiverMachine

  /** What a transfer starts from: the files to send, how the receiver was started, and the partials it may find. */
  datatype World = World(plan: seq<SendFile>, cfg: Config, h: Hash, partials: nat -> Bytes)

  /** How many steps a task may still take. */
  function TaskRank(task: Task): nat {
    match task
    case Opening(_) => 12
    case Writing(_, _) => 11
    case EndingStream(_) => 10
    case DigestingPart(_) => 9
    case SealingOk(_) => 8
    case Publishing(_) => 7
    case Linked(_) => 6
    case DigestingFinal(_) => 5
    case CleaningFinal(_) => 4
    case Reserving(_, _) => 4
    case Restarting(_) => 4
    case Replying(_) => 3
    case Resolving => 2
    case Throwing => 1
    case Idle => 0
  }

  lemma OpenRank(r: Receiver, cfg: Config, m: Control)
    ensures TaskRank(OpenControl(r, cfg, m).task) < 12
  {
    match m
    case Manifest(entries) => OpenManifestRank(r, cfg, entries);
    case FileBegin(id, name, size) => OpenFileBeginRank(r, id, name, size);
    case FileEnd(id, sha256) => OpenFileEndRank(r, id, sha256);
    case AllDone => OpenAllDoneRank(r);
    case _ =>
  }

  lemma OpenManifestRank(r: Receiver, cfg: Config, entries: seq<Entry>)
    ensures TaskRank(OpenManifest(r, cfg, entries).task) < 12
  {
  }

  lemma OpenFileBeginRank(r: Receiver, id: nat, name: int, size: nat)
    ensures TaskRank(OpenFileBegin(r, id, name, size).task) < 12
  {
  }

  lemma OpenAllDoneRank(r: Receiver)
    ensures TaskRank(OpenAllDone(r).task) < 12
  {
    ResolveRank(r.(allDoneSeen := true));
  }

  lemma ResolveRank(r: Receiver)
    ensures TaskRank(ResolveDone(r).task) < 4
  {
  }

  lemma FinalizeRank(r: Receiver, id: nat)
    ensures TaskRank(Finalize(r, id).task) < 11
  {
    ResolveRank(r);
  }

  lemma GiveUpRank(r: Receiver, id: nat)
    ensures TaskRank(GiveUp(r, id).task) == 1
  {
  }

  lemma EndRank(r: Receiver, id: nat)
    ensures TaskRank(ResolveDone(r).task) < 4 && TaskRank(Finalize(r, id).task) < 11 && TaskRank(GiveUp(r, id).task) < 4
  {
    ResolveRank(r);
    FinalizeRank(r, id);
    GiveUpRank(r, id);
  }

  lemma OpenFileEndRank(r: Receiver, id: nat, sha256: Digest)
    ensures TaskRank(OpenFileEnd(r, id, sha256).task) < 12
  {
    if id in r.files && r.files[id].expectedSha.None? {
      EndRank(Put(r, id, r.files[id].(expectedSha := Some(sha256))), id);
    }
  }

  lemma WriteRank(r: Receiver, id: nat, payload: Bytes)
    ensures TaskRank(Write(r, id, payload).task) < 11
  {
    if id in r.files {
      EndRank(Put(r, id, r.files[id].(disk := r.files[id].disk + payload)), id);
    }
  }

  lemma CheckFinalRank(r: Receiver, h: Hash, id: nat, ok: bool)
    ensures TaskRank(CheckFinal(r, h, id, ok).task) < 5
  {
    EndRank(r, id);
  }

  lemma ChecksRank(r: Receiver, cfg: Config, h: Hash, choice: Choice)
    requires r.task.EndingStream? || r.task.DigestingPart? || r.task.SealingOk? || r.task.Publishing?
    ensures TaskRank(WorkOn(r, cfg, h, choice).task) < TaskRank(r.task)
  {
    EndRank(r, r.task.id);
  }

  lemma LinkedRank(r: Receiver, cfg: Config, h: Hash, choice: Choice)
    requires r.task.Linked? || r.task.CleaningFinal?
    ensures TaskRank(WorkOn(r, cfg, h, choice).task) < TaskRank(r.task)
  {
    EndRank(r.(finals := r.finals - {r.task.id}), r.task.id);
    EndRank(Unpublish(r, r.task.id), r.task.id);
  }

  lemma OpeningRank(r: Receiver, cfg: Config, h: Hash, choice: Choice)
    requires r.task.Opening?
    ensures TaskRank(WorkOn(r, cfg, h, choice).task) < 12
  {
    match r.task.message
    case OnControl(m) => OpenRank(r, cfg, m);
    case OnBulk(c) => assert TaskRank(OpenChunk(r, c).task) < 12;
  }

  lemma FillingRank(r: Receiver, cfg: Config, h: Hash, choice: Choice)
    requires r.task.Reserving? || r.task.Restarting? || r.task.Replying? || r.task.Resolving? || r.task.Throwing?
    ensures TaskRank(WorkOn(r, cfg, h, choice).task) < TaskRank(r.task)
  {
  }

  lemma WorkLowersRank(r: Receiver, cfg: Config, h: Hash, choice: Choice)
    requires !r.task.Idle?
    ensures TaskRank(WorkOn(r, cfg, h, choice).task) < TaskRank(r.task)
  {
    match r.task
    case Opening(_) => OpeningRank(r, cfg, h, choice);
    case Writing(id, payload) => WriteRank(r, id, payload);
    case EndingStream(_) => ChecksRank(r, cfg, h, choice);
    case DigestingPart(_) => ChecksRank(r, cfg, h, choice);
    case SealingOk(_) => ChecksRank(r, cfg, h, choice);
    case Publishing(_) => ChecksRank(r, cfg, h, choice);
    case Linked(_) => LinkedRank(r, cfg, h, choice);
    case CleaningFinal(_) => LinkedRank(r, cfg, h, choice);
    case DigestingFinal(id) => CheckFinalRank(r, h, id, choice.ok);
    case _ => FillingRank(r, cfg, h, choice);
  }

  function ChoiceFor(w: World, task: Task): Choice {
    Choice(true, if task.Reserving? then w.partials(task.id) else [])
  }

  function WorkWell(w: World, r: Receiver): Receiver { WorkOn(r, w.cfg, w.h, ChoiceFor(w, r.task)) }

  function Settle(w: World, r: Receiver): Receiver
    decreases TaskRank(r.task)
  {
    if r.task.Idle? then r
    else
      WorkLowersRank(r, w.cfg, w.h, ChoiceFor(w, r.task));
      Settle(w, WorkWell(w, r))
  }

  /** Nothing failed and nothing is over. */
  predicate Running(r: Receiver) { !Stopped(r) && r.channelOpen && !r.allDoneSeen }

  // ----- the messages, one by one -----

  lemma SettleManifest(w: World, r: Receiver)
    requires r.task == Opening(OnControl(Manifest(EntriesOf(w.plan)))) && Running(r) && r.manifest.None?
    requires Acceptable(w.cfg, EntriesOf(w.plan))
    ensures Settle(w, r) == Goto(r.(manifest := Some(EntriesOf(w.plan))), Idle)
  {
    assert WorkWell(w, r) == Goto(r.(manifest := Some(EntriesOf(w.plan))), Idle);
  }

  /** The bytes of a partial file that a resuming receiver keeps. */
  function Resumed(w: World, f: nat): Bytes {
    if w.cfg.resume then w.partials(f)[..ResumeOffset(|w.partials(f)|, Size(w.plan, f))] else []
  }

  function ReadyFor(w: World, f: nat): Control {
    Ready(f, |Resumed(w, f)|, if |Resumed(w, f)| > 0 then Some(w.h(Resumed(w, f))) else None)
  }

  function ResumedState(w: World, f: nat): FileState {
    FileState(Size(w.plan, f), Resumed(w, f), Resumed(w, f), StartSeq(Size(w.plan, f), |Resumed(w, f)|), None, false, false, false)
  }

  lemma {:induction false} FindById(entries: seq<Entry>, f: nat)
    requires forall i :: 0 <= i < |entries| ==> entries[i].id == i
    ensures Find(entries, f) == if f < |entries| then Some(entries[f]) else None
  {
    if entries != [] {
      FindById(entries[..|entries| - 1], f);
    }
  }

  lemma SettleReply(w: World, r: Receiver, reply: Control)
    requires r.task == Replying(reply) && Running(r)
    ensures Settle(w, r) == Goto(r.(sent := r.sent + [reply]), Idle)
  {
    assert WorkWell(w, r) == Goto(r.(sent := r.sent + [reply]), Idle);
  }

  lemma SettleReserve(w: World, r: Receiver, f: nat)
    requires r.task == Reserving(f, Size(w.plan, f)) && Running(r)
    ensures Settle(w, r) == Goto(r.(files := r.files[f := ResumedState(w, f)], sent := r.sent + [ReadyFor(w, f)]), Idle)
  {
    var t := Goto(Put(r, f, ResumedState(w, f)), Replying(ReadyFor(w, f)));
    assert WorkWell(w, r) == t;
    SettleReply(w, t, ReadyFor(w, f));
  }

  lemma SettleFileBegin(w: World, r: Receiver, f: nat)
    requires f < |w.plan|
    requires r.task == Opening(OnControl(FileBegin(f, w.plan[f].name, |w.plan[f].content|))) && Running(r)
    requires r.manifest == Some(EntriesOf(w.plan)) && f !in r.files
    ensures Settle(w, r) == Goto(r.(files := r.files[f := ResumedState(w, f)], sent := r.sent + [ReadyFor(w, f)]), Idle)
  {
    FindById(EntriesOf(w.plan), f);
    var t := Goto(r, Reserving(f, Size(w.plan, f)));
    assert WorkWell(w, r) == t;
    SettleReserve(w, t, f);
  }

  lemma SettleRestart(w: World, r: Receiver, f: nat)
    requires r.task == Opening(OnControl(Restart(f))) && Running(r)
    requires f in r.files && !r.files[f].done && r.files[f].expectedSha.None?
    ensures Settle(w, r) == Goto(r.(files := r.files[f := r.files[f].(hashed := [], disk := [], expectedSeq := 0)],
                                    sent := r.sent + [Ready(f, 0, None)]), Idle)
  {
    var t := Goto(r, Restarting(f));
    assert WorkWell(w, r) == t;
    var u := Goto(Put(t, f, r.files[f].(hashed := [], disk := [], expectedSeq := 0)), Replying(Ready(f, 0, None)));
    assert WorkWell(w, t) == u;
    SettleReply(w, u, Ready(f, 0, None));
  }

  /** All bytes of the file are there, on disk and in the running hash, and have the expected digest. */
  predicate Complete(w: World, state: FileState) {
    && |state.disk| == state.size && state.hashed == state.disk
    && state.expectedSha == Some(w.h(state.disk))
  }

  lemma SettleChecks(w: World, r: Receiver, f: nat)
    requires r.task == EndingStream(f) && Running(r) && f in r.files && Complete(w, r.files[f])
    ensures Settle(w, r) == Settle(w, Goto(r, Publishing(f)))
  {
    var a, b, c := Goto(r, DigestingPart(f)), Goto(r, SealingOk(f)), Goto(r, Publishing(f));
    assert WorkWell(w, r) == a;
    assert Settle(w, r) == Settle(w, a);
    assert WorkWell(w, a) == b;
    assert Settle(w, a) == Settle(w, b);
    assert WorkWell(w, b) == c;
    assert Settle(w, b) == Settle(w, c);
  }

  /** The receiver after file `f` was published, verified and acknowledged. */
  function Acked(w: World, r: Receiver, f: nat): Receiver
    requires f in r.files
  {
    var state := r.files[f];
    Goto(r.(files := r.files[f := state.(published := true, done := true)], finals := r.finals[f := state.disk],
            verified := r.verified[f := w.h(state.disk)], sent := r.sent + [FileOk(f)]), Idle)
  }

  lemma SettleVerify(w: World, r: Receiver, f: nat)
    requires r.task == DigestingFinal(f) && Running(r) && f in r.files && Complete(w, r.files[f])
    requires f in r.finals && r.finals[f] == r.files[f].disk
    ensures Settle(w, r) == Goto(Put(r, f, r.files[f].(done := true))
                                   .(sent := r.sent + [FileOk(f)], verified := r.verified[f := w.h(r.files[f].disk)]), Idle)
  {
    var t := Put(r, f, r.files[f].(done := true)).(sent := r.sent + [FileOk(f)], verified := r.verified[f := w.h(r.files[f].disk)]);
    assert WorkWell(w, r) == ResolveDone(t) == Goto(t, Idle);
  }

  lemma SettlePublish(w: World, r: Receiver, f: nat)
    requires r.task == Publishing(f) && Running(r) && f in r.files && Complete(w, r.files[f])
    ensures Settle(w, r) == Acked(w, r, f)
  {
    var a := Goto(r.(finals := r.finals[f := r.files[f].disk]), Linked(f));
    assert WorkWell(w, r) == a;
    var b := Goto(Put(a, f, r.files[f].(published := true)), DigestingFinal(f));
    assert WorkWell(w, a) == b;
    SettleVerify(w, b, f);
    assert b.files[f := b.files[f].(done := true)] == r.files[f := r.files[f].(published := true, done := true)];
  }

  /** Finalizing a complete file ends with its acknowledgement. */
  lemma SettleFinalize(w: World, r: Receiver, f: nat)
    requires Running(r) && f in r.files && ReadyToFinalize(r.files[f]) && Complete(w, r.files[f])
    ensures Settle(w, Finalize(r, f)) == Acked(w, Put(r, f, r.files[f].(finalizing := true)), f)
  {
    var t := Goto(Put(r, f, r.files[f].(finalizing := true)), EndingStream(f));
    assert Finalize(r, f) == t;
    SettleChecks(w, t, f);
    SettlePublish(w, Goto(t, Publishing(f)), f);
  }

  lemma SettleWaiting(w: World, r: Receiver, f: nat)
    requires Running(r) && f in r.files && !ReadyToFinalize(r.files[f])
    ensures Settle(w, Finalize(r, f)) == Goto(r, Idle)
  {
    assert Finalize(r, f) == Goto(r, Idle);
  }

  lemma SettleFileEnd(w: World, r: Receiver, f: nat, sha256: Digest)
    requires r.task == Opening(OnControl(FileEnd(f, sha256))) && Running(r)
    requires f in r.files && r.files[f].expectedSha.None?
    ensures Settle(w, r) == Settle(w, Finalize(Put(r, f, r.files[f].(expectedSha := Some(sha256))), f))
  {
    assert WorkWell(w, r) == Finalize(Put(r, f, r.files[f].(expectedSha := Some(sha256))), f);
  }

  /** A file's state after one more chunk. */
  function WithChunk(state: FileState, payload: Bytes): FileState {
    state.(expectedSeq := state.expectedSeq + 1, hashed := state.hashed + payload, disk := state.disk + payload)
  }

  lemma SettleChunk(w: World, r: Receiver, f: nat, payload: Bytes)
    requires f in r.files && r.task == Opening(OnBulk(Chunk(f, r.files[f].expectedSeq, payload))) && Running(r)
    requires !r.files[f].done && 0 < |payload| && |r.files[f].hashed| + |payload| <= r.files[f].size
    ensures Settle(w, r) == Settle(w, Finalize(Goto(Put(r, f, WithChunk(r.files[f], payload)), Writing(f, payload)), f))
  {
    var state := r.files[f];
    var mid := state.(expectedSeq := state.expectedSeq + 1, hashed := state.hashed + payload);
    var t := Goto(Put(r, f, mid), Writing(f, payload));
    assert WorkWell(w, r) == t;
    var u := Put(t, f, mid.(disk := mid.disk + payload));
    assert WorkWell(w, t) == Finalize(u, f);
    assert r.files[f := mid][f := WithChunk(state, payload)] == r.files[f := WithChunk(state, payload)];
    assert u == Goto(Put(r, f, WithChunk(state, payload)), Writing(f, payload));
  }

  lemma SettleAllDone(w: World, r: Receiver)
    requires r.task == Opening(OnControl(AllDone)) && Running(r) && AllFilesDone(r)
    requires r.manifest.Some? && |r.files| == |Ids(r.manifest.value)|
    ensures Settle(w, r) == Goto(r.(allDoneSeen := true, completed := true, sent := r.sent + [AllDoneOk]), Idle)
  {
    var t := Goto(r.(allDoneSeen := true), Resolving);
    assert OpenAllDone(r) == ResolveDone(r.(allDoneSeen := true)) == t;
    assert WorkWell(w, r) == t;
    var u := Goto(t.(sent := r.sent + [AllDoneOk], completed := true), Idle);
    assert WorkWell(w, t) == u;
    assert Settle(w, t) == u;
  }
}
