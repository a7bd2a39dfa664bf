/**
 The stages of an undisturbed transfer.

 When nothing fails, what both ends and all three queues hold is a function of a small
 `Stage`: which file is at hand, how far its chunks were sent and received, whose turn it is.
 Each step of the pair moves the stage as `AfterProceeds` and its companions say.
*/
module Stages {
  import opened Prelude
  import opened Frames
  import opened SenderMachine
  import opened ReceiverMachine
  import opened Agreement
  import opened Settling

  datatype Stage =
    | Fresh
    | Begin(f: nat, seen: bool)
    | Asked(f: nat, seen: bool)
    | Offered(f: nat)
    | Checking(f: nat)
    | AskedAgain(f: nat)
    | OfferedAgain(f: nat)
    | CheckingAgain(f: nat)
    | Flowing(f: nat, i: nat, j: nat, holding: bool)
    | Ending(f: nat, i: nat, told: bool)
    | Confirmed(f: nat)
    | LastAsked
    | LastOffered
    | Home

  // ----- the assumptions -----

  /** The digest of the resumed prefix does not collide with that of the sender's prefix. */
  predicate PrefixHonest(w: World, f: nat) {
    var o := |Resumed(w, f)|;
    o <= Size(w.plan, f) && w.h(Resumed(w, f)) == w.h(Content(w.plan, f)[..o]) ==> Resumed(w, f) == Content(w.plan, f)[..o]
  }

  /** A plan the command line accepts, and a receiver that expects it. */
  ghost predicate GoodWorld(w: World) {
    && 1 <= |w.plan| <= 100
    && (forall f :: 0 <= f < |w.plan| ==> |w.plan[f].content| <= MAX_FILE_BYTES)
    && (w.cfg.accepted.Some? ==> w.cfg.accepted.value == EntriesOf(w.plan))
    && (forall f: nat :: f < |w.plan| ==> PrefixHonest(w, f))
  }

  // ----- what a stage stands for -----

  function Chunks(w: World, f: nat): nat { NumChunks(Size(w.plan, f)) }

  function DoneState(w: World, f: nat): FileState {
    FileState(Size(w.plan, f), Content(w.plan, f), Content(w.plan, f), Chunks(w, f), Some(Sha(w.h, w.plan, f)), true, true, true)
  }

  /** The first `k` chunks are there; `told` if the file's digest is. */
  function PartialState(w: World, f: nat, k: nat, told: bool): FileState {
    var prefix := Content(w.plan, f)[..ChunkStart(Size(w.plan, f), k)];
    FileState(Size(w.plan, f), prefix, prefix, k, if told then Some(Sha(w.h, w.plan, f)) else None, false, false, false)
  }

  function DoneFiles(w: World, f: nat): map<nat, FileState> {
    if f == 0 then map[] else DoneFiles(w, f - 1)[f - 1 := DoneState(w, f - 1)]
  }

  function DoneFinals(w: World, f: nat): map<nat, Bytes> {
    if f == 0 then map[] else DoneFinals(w, f - 1)[f - 1 := Content(w.plan, f - 1)]
  }

  lemma {:induction false} DoneFilesAre(w: World, f: nat)
    ensures forall id: nat :: id in DoneFiles(w, f) <==> id < f
    ensures forall id: nat :: id in DoneFiles(w, f) ==> DoneFiles(w, f)[id] == DoneState(w, id)
  {
    if f > 0 {
      DoneFilesAre(w, f - 1);
    }
  }

  lemma {:induction false} DoneFilesCount(w: World, f: nat)
    ensures |DoneFiles(w, f)| == f
  {
    if f > 0 {
      DoneFilesAre(w, f - 1);
      DoneFilesCount(w, f - 1);
      SizeAfterUpdate(DoneFiles(w, f - 1), f - 1, DoneState(w, f - 1));
    }
  }

  /** The final files of the first `f` files hold exactly the sender's bytes. */
  lemma {:induction false} DoneFinalsAre(w: World, f: nat)
    ensures forall id: nat :: id in DoneFinals(w, f) <==> id < f
    ensures forall id: nat :: id in DoneFinals(w, f) ==> DoneFinals(w, f)[id] == Content(w.plan, id)
  {
    if f > 0 {
      DoneFinalsAre(w, f - 1);
    }
  }

  function DoneDigests(w: World, f: nat): map<nat, Digest> {
    if f == 0 then map[] else DoneDigests(w, f - 1)[f - 1 := Sha(w.h, w.plan, f - 1)]
  }

  /** The receiver with `f` files done, perhaps the next one at hand, and no task in flight. */
  function ReceiverAt(w: World, seen: bool, f: nat, cur: Option<FileState>, over: bool, sent: seq<Control>): Receiver {
    Receiver(if seen then Some(EntriesOf(w.plan)) else None,
             if cur.Some? then DoneFiles(w, f)[f := cur.value] else DoneFiles(w, f),
             DoneFinals(w, f), DoneDigests(w, f), over, false, over, true, Idle, NotStarted, sent)
  }

  function SenderAt(pc: Pc, ready: map<nat, ReadyState>, pending: set<Ack>, like: Sender): Sender {
    Sender(pc, ready, pending, false, pc.Returned?, like.sealLog, like.restartLog)
  }

  function OfferOf(w: World, f: nat): ReadyState {
    ReadyState(|Resumed(w, f)|, if |Resumed(w, f)| > 0 then Some(w.h(Resumed(w, f))) else None)
  }

  function SenderOf(w: World, st: Stage, like: Sender): Sender {
    match st
    case Fresh => SenderAt(AtManifest, map[], {}, like)
    case Begin(f, _) => SenderAt(AtBegin(f), map[], {}, like)
    case Asked(f, _) => SenderAt(AwaitReady(f), map[], {ReadyAck(f)}, like)
    case Offered(f) => SenderAt(AwaitReady(f), map[], {ReadyAck(f)}, like)
    case Checking(f) => SenderAt(Verifying(f), map[f := OfferOf(w, f)], {}, like)
    case AskedAgain(f) => SenderAt(AwaitRestart(f), map[], {ReadyAck(f)}, like)
    case OfferedAgain(f) => SenderAt(AwaitRestart(f), map[], {ReadyAck(f)}, like)
    case CheckingAgain(f) => SenderAt(Verifying(f), map[f := ReadyState(0, None)], {}, like)
    case Flowing(f, _, j, holding) => SenderAt(if holding then Sealed(f, j) else Streaming(f, j), map[], {}, like)
    case Ending(f, _, _) => SenderAt(AwaitFileOk(f), map[], {FileOkAck(f)}, like)
    case Confirmed(f) => SenderAt(AwaitFileOk(f), map[], {FileOkAck(f)}, like)
    case LastAsked => SenderAt(AwaitAllDoneOk, map[], {AllDoneAck}, like)
    case LastOffered => SenderAt(AwaitAllDoneOk, map[], {AllDoneAck}, like)
    case Home => SenderAt(Returned, map[], {}, like)
  }

  function ReceiverOf(w: World, st: Stage, sent: seq<Control>): Receiver {
    match st
    case Fresh => ReceiverAt(w, false, 0, None, false, sent)
    case Begin(f, seen) => ReceiverAt(w, seen, f, None, false, sent)
    case Asked(f, seen) => ReceiverAt(w, seen, f, None, false, sent)
    case Offered(f) => ReceiverAt(w, true, f, Some(ResumedState(w, f)), false, sent)
    case Checking(f) => ReceiverAt(w, true, f, Some(ResumedState(w, f)), false, sent)
    case AskedAgain(f) => ReceiverAt(w, true, f, Some(ResumedState(w, f)), false, sent)
    case OfferedAgain(f) => ReceiverAt(w, true, f, Some(PartialState(w, f, 0, false)), false, sent)
    case CheckingAgain(f) => ReceiverAt(w, true, f, Some(PartialState(w, f, 0, false)), false, sent)
    case Flowing(f, i, _, _) => ReceiverAt(w, true, f, Some(PartialState(w, f, i, false)), false, sent)
    case Ending(f, i, told) => ReceiverAt(w, true, f, Some(PartialState(w, f, i, told)), false, sent)
    case Confirmed(f) => ReceiverAt(w, true, f + 1, None, false, sent)
    case LastAsked => ReceiverAt(w, true, |w.plan|, None, false, sent)
    case LastOffered => ReceiverAt(w, true, |w.plan|, None, true, sent)
    case Home => ReceiverAt(w, true, |w.plan|, None, true, sent)
  }

  function Announcement(w: World, seen: bool): seq<Control> { if seen then [] else [Manifest(EntriesOf(w.plan))] }

  function BeginMessage(w: World, f: nat): Control {
    FileBegin(f, if f < |w.plan| then w.plan[f].name else 0, Size(w.plan, f))
  }

  function ControlOf(w: World, st: Stage): seq<Control> {
    match st
    case Begin(_, seen) => Announcement(w, seen)
    case Asked(f, seen) => Announcement(w, seen) + [BeginMessage(w, f)]
    case AskedAgain(f) => [Restart(f)]
    case Ending(f, _, told) => if told then [] else [FileEnd(f, Sha(w.h, w.plan, f))]
    case LastAsked => [AllDone]
    case _ => []
  }

  function ChunkAt(w: World, f: nat, k: nat): Chunk { Chunk(f, k, ChunkOf(Content(w.plan, f), k)) }

  /** Chunks `i` to `j - 1`, in order. */
  function ChunksBetween(w: World, f: nat, i: nat, j: nat): seq<Chunk> {
    if i < j then seq(j - i, x requires 0 <= x < j - i => ChunkAt(w, f, i + x)) else []
  }

  function BulkOf(w: World, st: Stage): seq<Chunk> {
    match st
    case Flowing(f, i, j, _) => ChunksBetween(w, f, i, j)
    case Ending(f, i, _) => ChunksBetween(w, f, i, Chunks(w, f))
    case _ => []
  }

  function BackOf(w: World, st: Stage): seq<Control> {
    match st
    case Offered(f) => [ReadyFor(w, f)]
    case OfferedAgain(f) => [Ready(f, 0, None)]
    case Confirmed(f) => [FileOk(f)]
    case LastOffered => [AllDoneOk]
    case _ => []
  }

  predicate Trusted(w: World, f: nat) {
    var o := |Resumed(w, f)|;
    o == 0 || (o <= Size(w.plan, f) && w.h(Resumed(w, f)) == w.h(Content(w.plan, f)[..o]))
  }

  predicate StageOk(w: World, st: Stage) {
    match st
    case Begin(f, seen) => f <= |w.plan| && (!seen ==> f == 0)
    case Asked(f, seen) => f < |w.plan| && (!seen ==> f == 0)
    case Offered(f) => f < |w.plan|
    case Checking(f) => f < |w.plan|
    case AskedAgain(f) => f < |w.plan|
    case OfferedAgain(f) => f < |w.plan|
    case CheckingAgain(f) => f < |w.plan|
    case Flowing(f, i, j, holding) => f < |w.plan| && i <= j <= Chunks(w, f) && (holding ==> j < Chunks(w, f))
    case Ending(f, i, told) => f < |w.plan| && i <= Chunks(w, f) && (told ==> i < Chunks(w, f))
    case Confirmed(f) => f < |w.plan|
    case _ => true
  }

  /** The pair, with no task in flight, is at this stage. */
  ghost predicate At(w: World, st: Stage, n: Net) {
    && StageOk(w, st)
    && n.s == SenderOf(w, st, n.s)
    && n.r == ReceiverOf(w, st, n.r.sent)
    && n.control == ControlOf(w, st)
    && n.bulk == BulkOf(w, st)
    && n.back == BackOf(w, st)
  }

  // ----- how stages follow each other -----

  function StartOf(w: World, f: nat): nat { StartSeq(Size(w.plan, f), |Resumed(w, f)|) }

  function AfterProceeds(w: World, st: Stage): Stage {
    match st
    case Fresh => Begin(0, false)
    case Begin(f, seen) => if f < |w.plan| then Asked(f, seen) else LastAsked
    case Checking(f) => if Trusted(w, f) then Flowing(f, StartOf(w, f), StartOf(w, f), false) else AskedAgain(f)
    case CheckingAgain(f) => Flowing(f, 0, 0, false)
    case Flowing(f, i, j, holding) =>
      if holding then Flowing(f, i, j + 1, false)
      else if j < Chunks(w, f) then Flowing(f, i, j, true)
      else Ending(f, i, false)
    case _ => st
  }

  function AfterSenderTakes(st: Stage): Stage {
    match st
    case Offered(f) => Checking(f)
    case OfferedAgain(f) => CheckingAgain(f)
    case Confirmed(f) => Begin(f + 1, true)
    case LastOffered => Home
    case _ => st
  }

  function AfterTakesControl(w: World, st: Stage): Stage {
    match st
    case Begin(f, seen) => Begin(f, true)
    case Asked(f, seen) => if seen then Offered(f) else Asked(f, true)
    case AskedAgain(f) => OfferedAgain(f)
    case Ending(f, i, told) => if told then st else if i < Chunks(w, f) then Ending(f, i, true) else Confirmed(f)
    case LastAsked => LastOffered
    case _ => st
  }

  function AfterTakesChunk(w: World, st: Stage): Stage {
    match st
    case Flowing(f, i, j, holding) => if i < j then Flowing(f, i + 1, j, holding) else st
    case Ending(f, i, told) =>
      if i == Chunks(w, f) then st
      else if told && i + 1 == Chunks(w, f) then Confirmed(f)
      else Ending(f, i + 1, told)
    case _ => st
  }

  // ----- facts about the pieces -----

  lemma ResumedFits(w: World, f: nat)
    ensures ValidOffset(Size(w.plan, f), |Resumed(w, f)|)
  {
    ResumeOffsetIsGreatest(|w.partials(f)|, Size(w.plan, f));
  }

  /** A trusted prefix is a run of whole chunks of the file. */
  lemma TrustedIsPartial(w: World, f: nat)
    requires GoodWorld(w) && f < |w.plan| && Trusted(w, f)
    ensures ResumedState(w, f) == PartialState(w, f, StartOf(w, f), false) && StartOf(w, f) <= Chunks(w, f)
  {
    ResumedFits(w, f);
    StartOfOffset(Size(w.plan, f), |Resumed(w, f)|);
    assert PrefixHonest(w, f);
    assert Resumed(w, f) == Content(w.plan, f)[..|Resumed(w, f)|];
  }

  lemma NextPartial(w: World, f: nat, k: nat, told: bool)
    requires k < Chunks(w, f)
    ensures WithChunk(PartialState(w, f, k, told), ChunkOf(Content(w.plan, f), k)) == PartialState(w, f, k + 1, told)
    ensures 0 < |ChunkOf(Content(w.plan, f), k)|
    ensures |PartialState(w, f, k, told).hashed| + |ChunkOf(Content(w.plan, f), k)| <= Size(w.plan, f)
    ensures |PartialState(w, f, k, told).hashed| < Size(w.plan, f)
  {
    var c, size := Content(w.plan, f), Size(w.plan, f);
    ChunkBounds(size, k);
    assert c[..ChunkStart(size, k)] + ChunkOf(c, k) == c[..ChunkStart(size, k + 1)];
  }

  lemma WholePartial(w: World, f: nat, told: bool)
    ensures PartialState(w, f, Chunks(w, f), told).hashed == Content(w.plan, f)
  {
    ChunkBounds(Size(w.plan, f), Chunks(w, f));
  }

  lemma ChunksHead(w: World, f: nat, i: nat, j: nat)
    requires i < j
    ensures ChunksBetween(w, f, i, j) == [ChunkAt(w, f, i)] + ChunksBetween(w, f, i + 1, j)
  {
  }

  lemma ChunksLast(w: World, f: nat, i: nat, j: nat)
    requires i <= j
    ensures ChunksBetween(w, f, i, j + 1) == ChunksBetween(w, f, i, j) + [ChunkAt(w, f, j)]
  {
  }
}
