/**
 The two senders' chunk loops and the sender machine send the same chunks, and no loop, on
 whatever files, seals two chunks with the same nonce.
*/
module ChunkLoops {
  import opened Frames
  import opened SenderMachine
  import opened ChunkFrames

  // ----- the machine sends what the loops send -----

  /** The chunks that `n` steps of the sender's main loop put on the bulk channel. */
  function BulkOfSteps(s: Sender, plan: seq<SendFile>, h: Hash, n: nat): seq<Chunk>
    decreases n
  {
    if n == 0 then [] else Advance(s, plan, h).1.bulk + BulkOfSteps(Advance(s, plan, h).0, plan, h, n - 1)
  }

  function AfterSteps(s: Sender, plan: seq<SendFile>, h: Hash, n: nat): Sender
    decreases n
  {
    if n == 0 then s else AfterSteps(Advance(s, plan, h).0, plan, h, n - 1)
  }

  /** The chunks of file `f` that carry these frames. */
  function ChunksOfFrames(f: nat, frames: seq<Frame>): seq<Chunk> {
    seq(|frames|, i requires 0 <= i < |frames| => Chunk(f, frames[i].seqNo, frames[i].payload))
  }

  function FramesFrom(content: Bytes, k: nat): seq<Frame> { FramesIn(CHUNK_SIZE, content, k) }

  /** One chunk: it is sealed, then sent. */
  lemma TwoSteps(s: Sender, plan: seq<SendFile>, h: Hash, f: nat, k: nat, n: nat)
    requires s.pc == Streaming(f, k) && !s.failed && k < NumChunks(Size(plan, f)) && n >= 2
    ensures var u := s.(pc := Streaming(f, k + 1), sealLog := s.sealLog + [(f, k)]);
            && BulkOfSteps(s, plan, h, n) == [Chunk(f, k, ChunkOf(Content(plan, f), k))] + BulkOfSteps(u, plan, h, n - 2)
            && AfterSteps(s, plan, h, n) == AfterSteps(u, plan, h, n - 2)
  {
    var t := s.(pc := Sealed(f, k), sealLog := s.sealLog + [(f, k)]);
    var u := s.(pc := Streaming(f, k + 1), sealLog := s.sealLog + [(f, k)]);
    assert Advance(s, plan, h) == (t, NOTHING);
    assert Advance(t, plan, h) == (u, Output([], [Chunk(f, k, ChunkOf(Content(plan, f), k))]));
    assert BulkOfSteps(s, plan, h, n) == [] + BulkOfSteps(t, plan, h, n - 1);
  }

  lemma FramesHead(f: nat, content: Bytes, k: nat)
    requires k < NumChunks(|content|)
    ensures ChunksOfFrames(f, FramesFrom(content, k)) ==
              [Chunk(f, k, ChunkOf(content, k))] + ChunksOfFrames(f, FramesFrom(content, k + 1))
  {
    assert FramesFrom(content, k) == [Frame(k, ChunkOf(content, k))] + FramesFrom(content, k + 1);
  }

  /** From chunk `k` on, left alone, the machine sends exactly the frames the file still owes. */
  lemma {:induction false} MachineSendsFrames(s: Sender, plan: seq<SendFile>, h: Hash, f: nat, k: nat)
    requires s.pc == Streaming(f, k) && !s.failed && k <= NumChunks(Size(plan, f))
    ensures var n := 2 * (NumChunks(Size(plan, f)) - k);
            && BulkOfSteps(s, plan, h, n) == ChunksOfFrames(f, FramesFrom(Content(plan, f), k))
            && AfterSteps(s, plan, h, n).pc == Streaming(f, NumChunks(Size(plan, f)))
    decreases NumChunks(Size(plan, f)) - k
  {
    if k < NumChunks(Size(plan, f)) {
      var u := s.(pc := Streaming(f, k + 1), sealLog := s.sealLog + [(f, k)]);
      TwoSteps(s, plan, h, f, k, 2 * (NumChunks(Size(plan, f)) - k));
      FramesHead(f, Content(plan, f), k);
      MachineSendsFrames(u, plan, h, f, k + 1);
    }
  }

  /** The command-line loop on an unchanged file, and the machine that trusted the same offset. */
  method SendFileFromOffset(h: Hash, plan: seq<SendFile>, f: nat, resumeOffset: nat, ghost s: Sender)
    returns (frames: seq<Frame>, ok: bool)
    requires f < |plan| && ValidOffset(Size(plan, f), resumeOffset)
    requires s.pc == Streaming(f, StartSeq(Size(plan, f), resumeOffset)) && !s.failed
    ensures ok && ChunksOfFrames(f, frames) == BulkOfSteps(s, plan, h, 2 * (NumChunks(Size(plan, f)) - s.pc.k))
  {
    var content := plan[f].content;
    StartOfOffset(|content|, resumeOffset);
    frames, ok := SendFromOffset(CHUNK_SIZE, h, content, PlanOf(CHUNK_SIZE, h, content), resumeOffset);
    MachineSendsFrames(s, plan, h, f, s.pc.k);
  }

  /** The browser's loop, likewise. */
  method SendFileWithSkip(h: Hash, plan: seq<SendFile>, f: nat, resumeOffset: nat, ghost s: Sender)
    returns (frames: seq<Frame>, ok: bool)
    requires f < |plan| && ValidOffset(Size(plan, f), resumeOffset)
    requires s.pc == Streaming(f, StartSeq(Size(plan, f), resumeOffset)) && !s.failed
    ensures ok && ChunksOfFrames(f, frames) == BulkOfSteps(s, plan, h, 2 * (NumChunks(Size(plan, f)) - s.pc.k))
  {
    var content := plan[f].content;
    StartOfOffset(|content|, resumeOffset);
    frames, ok := SendWithSkip(CHUNK_SIZE, h, content, PlanOf(CHUNK_SIZE, h, content), resumeOffset);
    MachineSendsFrames(s, plan, h, f, s.pc.k);
  }

  // ----- nonces of the loops -----

  /** A plan whose chunk numbers fit the frame header. */
  predicate Numbered(plan: Plan) { |plan.chunkSha256| <= 0x1_0000_0000 }

  /** The frames of one run of a sender's loop over one file, changed or not. */
  datatype Sent = Sent(plan: Plan, start: nat, frames: seq<Frame>)

  ghost predicate IsLoopOutput(h: Hash, sent: Sent) {
    Numbered(sent.plan) && FollowsPlan(h, sent.plan, sent.start, sent.frames)
  }

  /**
   A sender that runs its loop once for every file, as both do, seals no two chunks with the
   same nonce: neither in one file nor in two, whatever the files turn into while it sends.
  */
  lemma LoopsRepeatNoNonce(h: Hash, runs: seq<Sent>, f: nat, i: nat, g: nat, j: nat)
    requires |runs| <= 256 && forall x :: 0 <= x < |runs| ==> IsLoopOutput(h, runs[x])
    requires f < |runs| && i < |runs[f].frames| && g < |runs| && j < |runs[g].frames|
    ensures IsAddress(f, runs[f].frames[i].seqNo) && IsAddress(g, runs[g].frames[j].seqNo)
    ensures NonceOf(f, runs[f].frames[i].seqNo) == NonceOf(g, runs[g].frames[j].seqNo) <==> f == g && i == j
  {
    assert IsLoopOutput(h, runs[f]) && IsLoopOutput(h, runs[g]);
    NonceIsInjective(f, runs[f].frames[i].seqNo, g, runs[g].frames[j].seqNo);
  }
}
