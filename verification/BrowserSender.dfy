/**
 The browser's sender: its loop reads a file from byte zero and skips what the receiver has.

 It shares the message handler, the waits and the order of words with the command line's
 sender, whose machine it refines: turns that skip a chunk are no step there, every other step is
 the same step, and a file found changed is the machine's `SourceChanged`.
*/
module BrowserSender {
  import opened Prelude
  import opened Frames
  import opened SenderMachine

  /** The variables of the loop over one file; its `seq` is the number in the program counter. */
  datatype Loop = Loop(resume: nat, offset: nat, fileBytes: nat, skipped: nat, hashed: Bytes, payload: Bytes)

  function StartLoop(resume: nat): Loop { Loop(resume, 0, 0, 0, [], []) }

  datatype Browser = Browser(s: Sender, loop: Loop)

  const INITIAL_BROWSER := Browser(INITIAL_SENDER, StartLoop(0))

  function Abandon(b: Browser): (Browser, Output) { (b.(s := Throw(b.s)), ABORTING) }

  // ----- the prefix -----

  /** hashBrowserFilePrefix: unlike hashSendPrefix it does not look at the plan's chunk digests. */
  method HashBrowserPrefix(h: Hash, disk: Bytes, resumeOffset: nat) returns (r: Result<Digest>)
    ensures r == if resumeOffset <= |disk| then Ok(h(disk[..resumeOffset])) else Err
  {
    var hash: Bytes := [];
    var offset := 0;
    while offset < resumeOffset
      invariant |hash| == Min(offset, resumeOffset) <= |disk| && hash == disk[..|hash|]
      decreases resumeOffset - offset
    {
      var length := Min(CHUNK_SIZE, resumeOffset - offset);
      if offset + length > |disk| {
        return Err;
      }
      assert disk[..offset + length] == disk[..offset] + disk[offset..offset + length];
      hash := hash + disk[offset..offset + length];
      offset := offset + CHUNK_SIZE;
    }
    return Ok(h(hash));
  }

  /**
   verifiedBrowserReadyState, `read` being what the file gives for the prefix. A short read
   throws; that the state of this file is gone by then matters to nobody any more.
  */
  function VerifyBrowser(b: Browser, plan: seq<SendFile>, h: Hash, f: nat, read: Bytes): (Browser, Output) {
    var ready := ReadyOf(b.s, f);
    var taken := b.s.(readyStates := b.s.readyStates - {f});
    if !ValidOffset(Size(plan, f), ready.offset) then Abandon(b.(s := taken))
    else if ready.offset > 0 && |read| != ready.offset then Abandon(b)
    else if ready.offset == 0 || ready.prefix == Some(h(read)) then
      (Browser(taken.(pc := Streaming(f, 0)), StartLoop(ready.offset)), NOTHING)
    else
      (b.(s := taken.(pc := AwaitRestart(f), pending := taken.pending + {ReadyAck(f)}, restartLog := taken.restartLog + [f])),
       Output([Restart(f)], []))
  }

  // ----- the loop over chunks -----

  function FilePlan(plan: seq<SendFile>, h: Hash, f: nat): Plan { PlanOf(CHUNK_SIZE, h, Content(plan, f)) }

  /** The read has the wanted length and is the chunk the plan was made of. */
  predicate ReadFits(loop: Loop, p: Plan, h: Hash, k: nat, read: Bytes)
    requires loop.offset < p.size
  {
    && |read| == Min(CHUNK_SIZE, p.size - loop.offset)
    && loop.fileBytes + |read| <= p.size
    && k < |p.chunkSha256| && h(read) == p.chunkSha256[k]
  }

  /** One turn of the loop up to its next await, or what follows its last turn. */
  function ReadNext(b: Browser, plan: seq<SendFile>, h: Hash, f: nat, k: nat, read: Bytes): (Browser, Output) {
    var p, loop := FilePlan(plan, h, f), b.loop;
    if loop.offset < p.size then
      if !ReadFits(loop, p, h, k, read) then Abandon(b)
      else
        var hashed := loop.hashed + read;
        if loop.skipped < loop.resume then
          (Browser(b.s.(pc := Streaming(f, k + 1)),
                   loop.(offset := loop.offset + CHUNK_SIZE, fileBytes := loop.fileBytes + |read|,
                         skipped := loop.skipped + |read|, hashed := hashed)), NOTHING)
        else (Browser(b.s.(pc := Sealed(f, k), sealLog := b.s.sealLog + [(f, k)]), loop.(hashed := hashed, payload := read)), NOTHING)
    else if k != |p.chunkSha256| || loop.fileBytes != p.size || h(loop.hashed) != p.sha256 then Abandon(b)
    else
      (b.(s := b.s.(pc := AwaitFileOk(f), pending := b.s.pending + {FileOkAck(f)})), Output([FileEnd(f, h(loop.hashed))], []))
  }

  /** The sealed chunk goes out. */
  function SendSealed(b: Browser, f: nat, k: nat): (Browser, Output) {
    var loop := b.loop;
    (Browser(b.s.(pc := Streaming(f, k + 1)),
             loop.(offset := loop.offset + CHUNK_SIZE, fileBytes := loop.fileBytes + |loop.payload|)),
     Output([], [Chunk(f, k, loop.payload)]))
  }

  /** One step of sendBrowserFiles; `read` is what the file gives if the step reads it. */
  function BrowserAdvance(b: Browser, plan: seq<SendFile>, h: Hash, read: Bytes): (Browser, Output) {
    if !CanAdvance(b.s) then (b, NOTHING)
    else if b.s.failed then Abandon(b)
    else
      match b.s.pc
      case Verifying(f) => VerifyBrowser(b, plan, h, f, read)
      case Streaming(f, k) => ReadNext(b, plan, h, f, k, read)
      case Sealed(f, k) => SendSealed(b, f, k)
      case _ => (b.(s := Advance(b.s, plan, h).0), Advance(b.s, plan, h).1)
  }

  // ----- the machine it refines -----

  /** Skipped chunks are behind the machine already. */
  function Seen(b: Browser, plan: seq<SendFile>): Sender {
    if b.s.pc.Streaming? && b.s.pc.k < StartSeq(Size(plan, b.s.pc.f), b.loop.resume)
    then b.s.(pc := Streaming(b.s.pc.f, StartSeq(Size(plan, b.s.pc.f), b.loop.resume)))
    else b.s
  }

  /** What the step is to the machine: none, a step of its own, or a source file found changed. */
  datatype Shadow = Stays | Moves | Breaks

  function ShadowOf(b: Browser, plan: seq<SendFile>, h: Hash, read: Bytes): Shadow {
    if !CanAdvance(b.s) || b.s.failed then Moves
    else
      match b.s.pc
      case Verifying(f) =>
        var ready := ReadyOf(b.s, f);
        if ValidOffset(Size(plan, f), ready.offset) && ready.offset > 0 && |read| != ready.offset then Breaks else Moves
      case Streaming(f, k) =>
        if b.loop.offset >= Size(plan, f) then Moves
        else if !ReadFits(b.loop, FilePlan(plan, h, f), h, k, read) then Breaks
        else if b.loop.skipped < b.loop.resume then Stays
        else Moves
      case _ => Moves
  }

  function Follow(s: Sender, plan: seq<SendFile>, h: Hash, shadow: Shadow): (Sender, Output) {
    match shadow
    case Stays => (s, NOTHING)
    case Moves => Advance(s, plan, h)
    case Breaks => (Throw(s), ABORTING)
  }

  /** The counters before chunk `k`. */
  predicate CountersAt(loop: Loop, content: Bytes, k: nat) {
    && ValidOffset(|content|, loop.resume) && k <= NumChunks(|content|)
    && loop.offset == k * CHUNK_SIZE
    && loop.fileBytes == ChunkStart(|content|, k)
    && loop.skipped == Min(loop.fileBytes, loop.resume)
    && loop.hashed == content[..loop.fileBytes]
  }

  /** The loop's variables say where it is, and a sealed chunk is one the receiver has not got. */
  predicate LoopOk(b: Browser, plan: seq<SendFile>) {
    match b.s.pc
    case Streaming(f, k) => CountersAt(b.loop, Content(plan, f), k)
    case Sealed(f, k) =>
      var content := Content(plan, f);
      && StartSeq(|content|, b.loop.resume) <= k < NumChunks(|content|)
      && b.loop.payload == ChunkOf(content, k)
      && b.loop.hashed == content[..ChunkStart(|content|, k)] + b.loop.payload
      && CountersAt(b.loop.(hashed := content[..ChunkStart(|content|, k)]), content, k)
    case _ => true
  }

  /**
   Digests do not mislead: whether the read prefix has the receiver's digest is what the plan's
   prefix would tell, and a read with the digest of a chunk is that chunk.
  */
  predicate Undeceived(b: Browser, plan: seq<SendFile>, h: Hash, read: Bytes) {
    match b.s.pc
    case Verifying(f) =>
      var ready := ReadyOf(b.s, f);
      0 < ready.offset == |read| <= Size(plan, f) ==>
        (ready.prefix == Some(h(read)) <==> ready.prefix == Some(h(Content(plan, f)[..ready.offset])))
    case Streaming(f, k) => h(read) == h(ChunkOf(Content(plan, f), k)) ==> read == ChunkOf(Content(plan, f), k)
    case _ => true
  }

  /** While less than the resume offset is skipped the chunk is one the receiver has, and no longer. */
  lemma SkipsWhatIsThere(size: nat, resume: nat, k: nat)
    requires ValidOffset(size, resume)
    ensures k < StartSeq(size, resume) <==> ChunkStart(size, k) < resume
    ensures k < StartSeq(size, resume) ==> ChunkStart(size, k + 1) <= resume
  {
    StartOfOffset(size, resume);
    SkipsExactly(CHUNK_SIZE, size, resume, k);
    if k < StartSeq(size, resume) {
      ProductsGrow(k + 1, StartSeq(size, resume), CHUNK_SIZE);
    }
  }

  lemma VerifyMirrors(b: Browser, plan: seq<SendFile>, h: Hash, read: Bytes)
    requires b.s.pc.Verifying? && !b.s.failed && Undeceived(b, plan, h, read)
    ensures var (t, out) := BrowserAdvance(b, plan, h, read);
            LoopOk(t, plan) && (Seen(t, plan), out) == Follow(Seen(b, plan), plan, h, ShadowOf(b, plan, h, read))
  {
    var f := b.s.pc.f;
    var ready := ReadyOf(b.s, f);
    if ValidOffset(Size(plan, f), ready.offset) {
      SkipsWhatIsThere(Size(plan, f), ready.offset, 0);
      assert Content(plan, f)[..0] == [];
    }
  }

  /**
   A prefix that is read in full mirrors the machine exactly if it earns the verdict the plan's
   prefix would: the browser compares what the file holds now with the receiver's digest only.
  */
  lemma VerifyMirrorsExactly(b: Browser, plan: seq<SendFile>, h: Hash, read: Bytes)
    requires b.s.pc.Verifying? && !b.s.failed
    requires var offset := ReadyOf(b.s, b.s.pc.f).offset; ValidOffset(Size(plan, b.s.pc.f), offset) && 0 < offset == |read|
    ensures var (t, out) := BrowserAdvance(b, plan, h, read);
            (Seen(t, plan), out) == Advance(Seen(b, plan), plan, h) <==> Undeceived(b, plan, h, read)
  {
    if Undeceived(b, plan, h, read) {
      VerifyMirrors(b, plan, h, read);
    }
  }

  lemma ReadMirrors(b: Browser, plan: seq<SendFile>, h: Hash, read: Bytes)
    requires b.s.pc.Streaming? && !b.s.failed && LoopOk(b, plan) && Undeceived(b, plan, h, read)
    requires b.loop.offset < Size(plan, b.s.pc.f)
    ensures var (t, out) := BrowserAdvance(b, plan, h, read);
            LoopOk(t, plan) && (Seen(t, plan), out) == Follow(Seen(b, plan), plan, h, ShadowOf(b, plan, h, read))
    ensures match ShadowOf(b, plan, h, read)
            case Stays => b.s.pc.k < StartSeq(Size(plan, b.s.pc.f), b.loop.resume)
            case Moves => StartSeq(Size(plan, b.s.pc.f), b.loop.resume) <= b.s.pc.k
            case Breaks => read != ChunkOf(Content(plan, b.s.pc.f), b.s.pc.k)
  {
    var f, k := b.s.pc.f, b.s.pc.k;
    var content := Content(plan, f);
    ChunkBounds(|content|, k);
    assert (k + 1) * CHUNK_SIZE == k * CHUNK_SIZE + CHUNK_SIZE;
    SkipsWhatIsThere(|content|, b.loop.resume, k);
    if ReadFits(b.loop, FilePlan(plan, h, f), h, k, read) {
      assert read == ChunkOf(content, k);
      assert content[..ChunkStart(|content|, k + 1)] == content[..ChunkStart(|content|, k)] + read;
    }
  }

  /** After the last chunk none of the checks fails. */
  lemma EndMirrors(b: Browser, plan: seq<SendFile>, h: Hash, read: Bytes)
    requires b.s.pc.Streaming? && !b.s.failed && LoopOk(b, plan) && b.loop.offset >= Size(plan, b.s.pc.f)
    ensures var (t, out) := BrowserAdvance(b, plan, h, read);
            LoopOk(t, plan) && (Seen(t, plan), out) == Follow(Seen(b, plan), plan, h, ShadowOf(b, plan, h, read))
  {
    var f, k := b.s.pc.f, b.s.pc.k;
    var content := Content(plan, f);
    ChunkBounds(|content|, k);
    assert k == NumChunks(|content|) && b.loop.hashed == content;
    SkipsWhatIsThere(|content|, b.loop.resume, k);
  }

  lemma SealedMirrors(b: Browser, plan: seq<SendFile>, h: Hash, read: Bytes)
    requires b.s.pc.Sealed? && !b.s.failed && LoopOk(b, plan)
    ensures var (t, out) := BrowserAdvance(b, plan, h, read);
            LoopOk(t, plan) && (Seen(t, plan), out) == Follow(Seen(b, plan), plan, h, ShadowOf(b, plan, h, read))
  {
    var f, k := b.s.pc.f, b.s.pc.k;
    var content := Content(plan, f);
    ChunkBounds(|content|, k);
    assert (k + 1) * CHUNK_SIZE == k * CHUNK_SIZE + CHUNK_SIZE;
    SkipsWhatIsThere(|content|, b.loop.resume, k);
    StartsGoUp(CHUNK_SIZE, |content|, k);
    assert content[..ChunkStart(|content|, k + 1)] == content[..ChunkStart(|content|, k)] + b.loop.payload;
  }

  /** Every step of the browser's sender is one of the machine, or skips a chunk. */
  lemma AdvanceMirrors(b: Browser, plan: seq<SendFile>, h: Hash, read: Bytes)
    requires LoopOk(b, plan) && Undeceived(b, plan, h, read)
    ensures var (t, out) := BrowserAdvance(b, plan, h, read);
            LoopOk(t, plan) && (Seen(t, plan), out) == Follow(Seen(b, plan), plan, h, ShadowOf(b, plan, h, read))
  {
    if CanAdvance(b.s) && !b.s.failed {
      if b.s.pc.Verifying? {
        VerifyMirrors(b, plan, h, read);
      } else if b.s.pc.Sealed? {
        SealedMirrors(b, plan, h, read);
      } else if b.s.pc.Streaming? {
        if b.loop.offset < Size(plan, b.s.pc.f) {
          ReadMirrors(b, plan, h, read);
        } else {
          EndMirrors(b, plan, h, read);
        }
      }
    }
  }

  /** What else happens to a sender does not touch the loop. */
  lemma OthersMirror(b: Browser, plan: seq<SendFile>, h: Hash, e: SenderEvent)
    requires LoopOk(b, plan) && !e.Proceed?
    ensures var t := b.(s := SenderStep(b.s, plan, h, e));
            LoopOk(t, plan) && Seen(t, plan) == SenderStep(Seen(b, plan), plan, h, e)
  {
  }
}
