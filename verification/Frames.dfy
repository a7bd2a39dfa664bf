/**
 Cutting a file into chunks: chunk numbers, resume offsets, and the two senders' loops.

 The size of a chunk is a parameter `c` of everything here; the program's is CHUNK_SIZE. The
 digest is an uninterpreted function `h`; a running hash is the bytes it has seen.
*/
module Frames {
  import opened Prelude

  type Bytes = seq<Byte>
  type Digest = int
  type Hash = Bytes -> Digest
  type Positive = c: nat | c > 0 witness 1

  const CHUNK_SIZE: nat := 16 * 1024
  const MAX_FILE_BYTES: nat := 1024 * 1024 * 1024

  datatype Frame = Frame(seqNo: nat, payload: Bytes)

  // ----- chunks of any size -----

  function CountOf(c: Positive, size: nat): nat { (size + c - 1) / c }

  /** Where chunk `k` starts; the end of the file for every number past the last chunk. */
  function StartAt(c: Positive, size: nat, k: nat): (start: nat)
    ensures start <= size
  {
    if k * c <= size then k * c else size
  }

  lemma StartsGoUp(c: Positive, size: nat, k: nat)
    ensures StartAt(c, size, k) <= StartAt(c, size, k + 1)
  {
    assert (k + 1) * c == k * c + c;
  }

  function ChunkIn(c: Positive, content: Bytes, k: nat): Bytes {
    StartsGoUp(c, |content|, k);
    content[StartAt(c, |content|, k)..StartAt(c, |content|, k + 1)]
  }

  predicate ValidFor(c: Positive, size: nat, offset: nat) { offset <= size && (offset < size ==> offset % c == 0) }

  function SeqFor(c: Positive, size: nat, offset: nat): nat { if offset == size then CountOf(c, size) else offset / c }

  /** The frames a sender owes from chunk `k` on. */
  function FramesIn(c: Positive, content: Bytes, k: nat): seq<Frame>
    decreases CountOf(c, |content|) - k
  {
    if k >= CountOf(c, |content|) then [] else [Frame(k, ChunkIn(c, content, k))] + FramesIn(c, content, k + 1)
  }

  // ----- the program's chunks -----

  function NumChunks(size: nat): nat { CountOf(CHUNK_SIZE, size) }

  function ChunkStart(size: nat, k: nat): (start: nat)
    ensures start <= size
  {
    StartAt(CHUNK_SIZE, size, k)
  }

  function ChunkOf(content: Bytes, k: nat): Bytes { ChunkIn(CHUNK_SIZE, content, k) }

  predicate ValidOffset(size: nat, offset: nat) { ValidFor(CHUNK_SIZE, size, offset) }

  function StartSeq(size: nat, offset: nat): nat { SeqFor(CHUNK_SIZE, size, offset) }

  // ----- arithmetic of chunks -----

  lemma ProductsGrow(k: nat, m: nat, c: nat)
    requires k <= m
    ensures k * c <= m * c
  {
  }

  lemma QuotientOf(c: Positive, n: nat)
    ensures n / c * c <= n < n / c * c + c
    ensures n % c == 0 ==> n / c * c == n
  {
    assert n == n / c * c + n % c;
  }

  /** A chunk is there exactly if its start is within the file. */
  lemma CountBounds(c: Positive, size: nat, k: nat)
    ensures k < CountOf(c, size) <==> k * c < size
  {
    var q := CountOf(c, size);
    QuotientOf(c, size + c - 1);
    if k < q {
      ProductsGrow(k, q - 1, c);
      assert (q - 1) * c == q * c - c;
    } else {
      ProductsGrow(q, k, c);
    }
  }

  lemma BoundsOf(c: Positive, size: nat, k: nat)
    ensures k < CountOf(c, size) <==> k * c < size
    ensures k < CountOf(c, size) ==> StartAt(c, size, k) == k * c < StartAt(c, size, k + 1)
    ensures k >= CountOf(c, size) ==> StartAt(c, size, k) == size
    ensures 0 <= StartAt(c, size, k + 1) - StartAt(c, size, k) <= c
  {
    CountBounds(c, size, k);
    assert (k + 1) * c == k * c + c;
  }

  lemma ChunkBounds(size: nat, k: nat)
    ensures k < NumChunks(size) <==> k * CHUNK_SIZE < size
    ensures k < NumChunks(size) ==> ChunkStart(size, k) == k * CHUNK_SIZE < ChunkStart(size, k + 1)
    ensures k >= NumChunks(size) ==> ChunkStart(size, k) == size
    ensures 0 <= ChunkStart(size, k + 1) - ChunkStart(size, k) <= CHUNK_SIZE
  {
    BoundsOf(CHUNK_SIZE, size, k);
  }

  /** A file of whole chunks has that many. */
  lemma CountOfWhole(c: Positive, offset: nat)
    requires offset % c == 0
    ensures CountOf(c, offset) == offset / c
  {
    var m := offset / c;
    QuotientOf(c, offset);
    CountBounds(c, offset, m);
    if m > 0 {
      CountBounds(c, offset, m - 1);
      assert (m - 1) * c == m * c - c;
    }
  }

  /** A valid resume offset is exactly the start of the chunk it resumes at. */
  lemma StartOfValid(c: Positive, size: nat, offset: nat)
    requires ValidFor(c, size, offset)
    ensures SeqFor(c, size, offset) == CountOf(c, offset) <= CountOf(c, size)
    ensures StartAt(c, size, SeqFor(c, size, offset)) == offset
    ensures offset < size ==> SeqFor(c, size, offset) < CountOf(c, size)
  {
    if offset == size {
      BoundsOf(c, size, CountOf(c, size));
    } else {
      QuotientOf(c, offset);
      CountOfWhole(c, offset);
      BoundsOf(c, size, offset / c);
    }
  }

  lemma StartOfOffset(size: nat, offset: nat)
    requires ValidOffset(size, offset)
    ensures StartSeq(size, offset) <= NumChunks(size)
    ensures ChunkStart(size, StartSeq(size, offset)) == offset
    ensures offset < size ==> StartSeq(size, offset) < NumChunks(size)
  {
    StartOfValid(CHUNK_SIZE, size, offset);
  }

  // ----- resume offsets -----

  /** The offset a receiver resumes at: reserveExistingResumablePart. */
  method ResumeBytes(c: Positive, partSize: nat, expectedSize: nat) returns (resumeBytes: nat)
    ensures resumeBytes == ResumeFor(c, partSize, expectedSize)
  {
    resumeBytes := if partSize <= expectedSize then partSize else expectedSize;
    if resumeBytes < expectedSize {
      assert resumeBytes == resumeBytes / c * c + resumeBytes % c;
      resumeBytes := resumeBytes - resumeBytes % c;
    }
  }

  /** browserResumeOffset. */
  function ResumeFor(c: Positive, partialSize: nat, expectedSize: nat): nat {
    if partialSize >= expectedSize then expectedSize else partialSize / c * c
  }

  function ResumeOffset(partialSize: nat, expectedSize: nat): nat { ResumeFor(CHUNK_SIZE, partialSize, expectedSize) }

  lemma ProductGap(k: nat, m: nat, c: nat)
    ensures k < m ==> k * c + c <= m * c
    ensures k <= m ==> k * c <= m * c
  {
    if k < m {
      ProductsGrow(k + 1, m, c);
      assert (k + 1) * c == k * c + c;
    } else if k == m {
      assert k * c == m * c;
    }
  }

  lemma WholeProduct(k: nat, c: Positive)
    ensures k * c % c == 0
  {
    var n := k * c;
    QuotientOf(c, n);
    var q := n / c;
    ProductGap(q, k, c);
    ProductGap(k, q, c);
    assert n == n / c * c + n % c;
  }

  /** The resume offset is valid, within the partial, and the greatest such. */
  lemma ResumeIsGreatest(c: Positive, partialSize: nat, expectedSize: nat)
    ensures var o := ResumeFor(c, partialSize, expectedSize);
            && ValidFor(c, expectedSize, o) && o <= partialSize
            && (forall other: nat :: ValidFor(c, expectedSize, other) && other <= partialSize ==> other <= o)
  {
    var m := partialSize / c;
    QuotientOf(c, partialSize);
    WholeProduct(m, c);
    forall other: nat | ValidFor(c, expectedSize, other) && other <= partialSize && partialSize < expectedSize
      ensures other <= m * c
    {
      QuotientOf(c, other);
      ProductGap(m, other / c, c);
      ProductGap(other / c, m, c);
    }
  }

  lemma ResumeOffsetIsGreatest(partialSize: nat, expectedSize: nat)
    ensures var o := ResumeOffset(partialSize, expectedSize);
            && ValidOffset(expectedSize, o) && o <= partialSize
            && (forall other: nat :: ValidOffset(expectedSize, other) && other <= partialSize ==> other <= o)
  {
    ResumeIsGreatest(CHUNK_SIZE, partialSize, expectedSize);
  }

  // ----- what frames are -----

  function Payloads(frames: seq<Frame>): Bytes {
    if frames == [] then [] else frames[0].payload + Payloads(frames[1..])
  }

  /**
   The frames from chunk `k` on carry consecutive numbers, are not empty, fit a chunk, and
   joined they are the rest of the file: nothing is lost, repeated or reordered.
  */
  lemma {:induction false} FramesCoverTheRest(c: Positive, content: Bytes, k: nat)
    requires k <= CountOf(c, |content|)
    ensures var frames := FramesIn(c, content, k);
            && |frames| == CountOf(c, |content|) - k
            && Payloads(frames) == content[StartAt(c, |content|, k)..]
            && (forall i :: 0 <= i < |frames| ==>
                  frames[i].seqNo == k + i && 0 < |frames[i].payload| <= c)
    decreases CountOf(c, |content|) - k
  {
    BoundsOf(c, |content|, k);
    if k < CountOf(c, |content|) {
      FramesCoverTheRest(c, content, k + 1);
      var rest := FramesIn(c, content, k + 1);
      var frames := FramesIn(c, content, k);
      assert frames[1..] == rest;
      assert content[StartAt(c, |content|, k)..] == ChunkIn(c, content, k) + content[StartAt(c, |content|, k + 1)..];
      assert forall i :: 0 < i < |frames| ==> frames[i] == rest[i - 1];
    }
  }

  /** The frames of chunks `k` to `j - 1`. */
  function FramesBetween(c: Positive, content: Bytes, k: nat, j: nat): seq<Frame>
    requires k <= j
  {
    seq(j - k, i requires 0 <= i < j - k => Frame(k + i, ChunkIn(c, content, k + i)))
  }

  lemma FramesStep(c: Positive, content: Bytes, k: nat, j: nat)
    requires k <= j
    ensures FramesBetween(c, content, k, j + 1) == FramesBetween(c, content, k, j) + [Frame(j, ChunkIn(c, content, j))]
  {
  }

  lemma {:induction false} FramesToTheEnd(c: Positive, content: Bytes, k: nat)
    requires k <= CountOf(c, |content|)
    ensures FramesBetween(c, content, k, CountOf(c, |content|)) == FramesIn(c, content, k)
    decreases CountOf(c, |content|) - k
  {
    var n := CountOf(c, |content|);
    if k < n {
      FramesToTheEnd(c, content, k + 1);
      var all, rest := FramesBetween(c, content, k, n), FramesBetween(c, content, k + 1, n);
      assert all == [Frame(k, ChunkIn(c, content, k))] + rest;
    }
  }

  // ----- the plan a sender makes of a file, and its check while sending -----

  datatype Plan = Plan(size: nat, sha256: Digest, chunkSha256: seq<Digest>)

  function PlanOf(c: Positive, h: Hash, content: Bytes): Plan {
    Plan(|content|, h(content), ChunkDigests(c, h, content, CountOf(c, |content|)))
  }

  function ChunkDigests(c: Positive, h: Hash, content: Bytes, n: nat): seq<Digest> {
    seq(n, k requires 0 <= k < n => h(ChunkIn(c, content, k)))
  }

  /**
   Hashing a file before the transfer, chunk by chunk: hashFileHandle. `size` is what the file
   had when it was opened, `stable` the verdict of the snapshots taken after reading it.
  */
  method HashFile(c: Positive, h: Hash, content: Bytes, size: nat, stable: bool) returns (r: Result<Plan>)
    ensures r == if |content| == size && stable then Ok(PlanOf(c, h, content)) else Err
  {
    var hash: Bytes := [];
    var chunkSha256: seq<Digest> := [];
    var bytesRead := 0;
    ghost var k := 0;
    while bytesRead < |content|
      invariant bytesRead == |hash| && hash == content[..StartAt(c, |content|, k)] && bytesRead <= size
      invariant k <= CountOf(c, |content|) && chunkSha256 == ChunkDigests(c, h, content, k)
      decreases |content| - bytesRead
    {
      BoundsOf(c, |content|, k);
      var length := if c <= |content| - bytesRead then c else |content| - bytesRead;
      var payload := content[bytesRead..bytesRead + length];
      PieceIsChunk(c, content, k, bytesRead);
      if bytesRead + |payload| > size {
        return Err;
      }
      assert content[..bytesRead + length] == content[..bytesRead] + payload;
      hash := hash + payload;
      chunkSha256 := chunkSha256 + [h(payload)];
      bytesRead := bytesRead + |payload|;
      k := k + 1;
    }
    BoundsOf(c, |content|, k);
    if bytesRead != size || !stable {
      return Err;
    }
    assert hash == content;
    return Ok(Plan(size, h(hash), chunkSha256));
  }

  /** A read of one chunk's length at a chunk's start, cut at the end of the file, gives the chunk. */
  lemma PieceIsChunk(c: Positive, content: Bytes, k: nat, at: nat)
    requires at == StartAt(c, |content|, k) < |content|
    ensures var length := if c <= |content| - at then c else |content| - at;
            k < CountOf(c, |content|) && at == k * c && at + length == StartAt(c, |content|, k + 1)
            && content[at..at + length] == ChunkIn(c, content, k)
  {
    BoundsOf(c, |content|, k);
    assert (k + 1) * c == k * c + c;
  }

  /** Every frame sent matches the plan made before, numbers go up by one from `start`. */
  ghost predicate FollowsPlan(h: Hash, plan: Plan, start: nat, frames: seq<Frame>) {
    forall i :: 0 <= i < |frames| ==>
      && frames[i].seqNo == start + i
      && frames[i].seqNo < |plan.chunkSha256|
      && h(frames[i].payload) == plan.chunkSha256[frames[i].seqNo]
  }

  /** hashSendPrefix: the skipped prefix is read again and checked chunk by chunk. */
  method HashSendPrefix(c: Positive, h: Hash, disk: Bytes, plan: Plan, resumeOffset: nat) returns (ok: bool, hash: Bytes)
    ensures ok ==> resumeOffset <= |disk| && hash == disk[..resumeOffset]
    ensures ok ==> ChunkDigests(c, h, hash, CountOf(c, resumeOffset)) <= plan.chunkSha256
    ensures plan == PlanOf(c, h, disk) && ValidFor(c, |disk|, resumeOffset) ==> ok
  {
    hash := [];
    var offset, k := 0, 0;
    while offset < resumeOffset
      invariant offset == k * c
      invariant |hash| == if offset <= resumeOffset then offset else resumeOffset
      invariant |hash| <= |disk| && hash == disk[..|hash|]
      invariant k <= CountOf(c, resumeOffset) && ChunkDigests(c, h, hash, k) <= plan.chunkSha256
      decreases resumeOffset - offset
    {
      CountBounds(c, resumeOffset, k);
      var length := if c <= resumeOffset - offset then c else resumeOffset - offset;
      PrefixChunk(c, disk, resumeOffset, k);
      if offset + length > |disk| {
        return false, hash;
      }
      var payload := disk[offset..offset + length];
      if k >= |plan.chunkSha256| || h(payload) != plan.chunkSha256[k] {
        return false, hash;
      }
      assert disk[..offset + length] == disk[..offset] + payload;
      assert (k + 1) * c == k * c + c;
      DigestsGrow(c, h, hash, payload, k);
      hash := hash + payload;
      offset := offset + c;
      k := k + 1;
    }
    CountBounds(c, resumeOffset, k);
    ok := true;
  }

  /** After whole chunks, one more piece is one more chunk. */
  lemma DigestsGrow(c: Positive, h: Hash, whole: Bytes, piece: Bytes, k: nat)
    requires |whole| == k * c && 0 < |piece| <= c
    ensures ChunkDigests(c, h, whole + piece, k + 1) == ChunkDigests(c, h, whole, k) + [h(piece)]
  {
    forall j: nat | j < k
      ensures ChunkIn(c, whole + piece, j) == ChunkIn(c, whole, j)
    {
      ProductsGrow(j + 1, k, c);
      ProductsGrow(j, k, c);
      assert (whole + piece)[j * c..(j + 1) * c] == whole[j * c..(j + 1) * c];
    }
    assert (k + 1) * c == k * c + c;
    assert ChunkIn(c, whole + piece, k) == piece;
  }

  /** Below a valid resume offset the pieces read again are the chunks of the plan. */
  lemma PrefixChunk(c: Positive, disk: Bytes, resumeOffset: nat, k: nat)
    requires k * c < resumeOffset
    ensures ValidFor(c, |disk|, resumeOffset) ==>
              var length := if c <= resumeOffset - k * c then c else resumeOffset - k * c;
              && k < CountOf(c, |disk|) && k * c + length <= |disk|
              && disk[k * c..k * c + length] == ChunkIn(c, disk, k)
  {
    if ValidFor(c, |disk|, resumeOffset) {
      BoundsOf(c, |disk|, k);
      assert (k + 1) * c == k * c + c;
      PieceIsChunk(c, disk, k, k * c);
      if resumeOffset < |disk| {
        QuotientOf(c, resumeOffset);
        if k + 1 > resumeOffset / c {
          ProductsGrow(resumeOffset / c, k, c);
        } else {
          ProductsGrow(k + 1, resumeOffset / c, c);
        }
      }
    }
  }

  /**
   The command-line sender's loop: a stream that starts at the resume offset. `disk` is what
   the file holds now, `plan` what was hashed before; frames sent before a failed check stay sent.
  */
  method SendFromOffset(c: Positive, h: Hash, disk: Bytes, plan: Plan, resumeOffset: nat)
    returns (frames: seq<Frame>, ok: bool)
    requires resumeOffset <= plan.size
    ensures FollowsPlan(h, plan, SeqFor(c, plan.size, resumeOffset), frames)
    ensures ok ==> |disk| == plan.size && h(disk) == plan.sha256
    ensures plan == PlanOf(c, h, disk) && ValidFor(c, |disk|, resumeOffset) ==>
              ok && frames == FramesIn(c, disk, SeqFor(c, |disk|, resumeOffset))
  {
    frames := [];
    var prefixOk, hash := HashSendPrefix(c, h, disk, plan, resumeOffset);
    if !prefixOk {
      return frames, false;
    }
    ghost var start := SeqFor(c, plan.size, resumeOffset);
    ghost var honest := plan == PlanOf(c, h, disk) && ValidFor(c, |disk|, resumeOffset);
    if honest {
      StartOfValid(c, |disk|, resumeOffset);
    }
    var seqNo := if resumeOffset == plan.size then |plan.chunkSha256| else resumeOffset / c;
    ghost var first := seqNo;
    var fileBytes := resumeOffset;
    while fileBytes < |disk|
      invariant resumeOffset <= fileBytes <= |disk|
      invariant hash == disk[..fileBytes]
      invariant seqNo == first + |frames|
      invariant frames != [] ==> first == start
      invariant FollowsPlan(h, plan, start, frames)
      invariant honest ==> first == start && seqNo <= CountOf(c, |disk|) && fileBytes == StartAt(c, |disk|, seqNo)
      invariant honest ==> frames == FramesBetween(c, disk, start, seqNo)
      decreases |disk| - fileBytes
    {
      var length := if c <= |disk| - fileBytes then c else |disk| - fileBytes;
      var payload := disk[fileBytes..fileBytes + length];
      if honest {
        PieceIsChunk(c, disk, seqNo, fileBytes);
      }
      if fileBytes + |payload| > plan.size || seqNo >= |plan.chunkSha256| || h(payload) != plan.chunkSha256[seqNo] {
        return frames, false;
      }
      if honest {
        FramesStep(c, disk, start, seqNo);
      }
      assert disk[..fileBytes + length] == disk[..fileBytes] + payload;
      hash := hash + payload;
      frames := frames + [Frame(seqNo, payload)];
      seqNo := seqNo + 1;
      fileBytes := fileBytes + |payload|;
    }
    assert hash == disk;
    if honest {
      BoundsOf(c, |disk|, seqNo);
      FramesToTheEnd(c, disk, start);
    }
    ok := seqNo == |plan.chunkSha256| && fileBytes == plan.size && h(hash) == plan.sha256;
  }

  /**
   The browser's loop: it reads from byte zero and skips what the receiver already has. What it
   sends follows the plan too, from the first chunk that starts at or after the resume offset.
  */
  method SendWithSkip(c: Positive, h: Hash, disk: Bytes, plan: Plan, resumeOffset: nat)
    returns (frames: seq<Frame>, ok: bool)
    requires resumeOffset <= plan.size
    ensures FollowsPlan(h, plan, CountOf(c, resumeOffset), frames)
    ensures ok ==> plan.size <= |disk| && h(disk[..plan.size]) == plan.sha256
    ensures plan == PlanOf(c, h, disk) && ValidFor(c, |disk|, resumeOffset) ==>
              ok && frames == FramesIn(c, disk, SeqFor(c, |disk|, resumeOffset))
  {
    frames := [];
    ghost var start := CountOf(c, resumeOffset);
    ghost var honest := plan == PlanOf(c, h, disk) && ValidFor(c, |disk|, resumeOffset);
    if honest {
      StartOfValid(c, |disk|, resumeOffset);
    }
    var hash: Bytes := [];
    var seqNo, fileBytes, skippedBytes, offset := 0, 0, 0, 0;
    while offset < plan.size
      invariant offset == seqNo * c
      invariant fileBytes == StartAt(c, plan.size, seqNo) <= |disk|
      invariant hash == disk[..fileBytes]
      invariant seqNo <= start ==> skippedBytes == fileBytes && frames == []
      invariant seqNo > start ==> skippedBytes >= resumeOffset && |frames| == seqNo - start
      invariant FollowsPlan(h, plan, start, frames)
      invariant honest && seqNo > start ==> frames == FramesBetween(c, disk, start, seqNo)
      invariant honest ==> seqNo <= CountOf(c, |disk|)
      decreases plan.size - offset
    {
      BoundsOf(c, plan.size, seqNo);
      SkipsExactly(c, plan.size, resumeOffset, seqNo);
      var length := if c <= plan.size - offset then c else plan.size - offset;
      if offset + length > |disk| {
        return frames, false;
      }
      var payload := disk[offset..offset + length];
      if honest {
        PieceIsChunk(c, disk, seqNo, offset);
      }
      if fileBytes + |payload| > plan.size || seqNo >= |plan.chunkSha256| || h(payload) != plan.chunkSha256[seqNo] {
        return frames, false;
      }
      if honest && start <= seqNo {
        FramesStep(c, disk, start, seqNo);
      }
      assert disk[..fileBytes + length] == disk[..fileBytes] + payload;
      assert (seqNo + 1) * c == seqNo * c + c;
      hash := hash + payload;
      if skippedBytes < resumeOffset {
        skippedBytes := skippedBytes + |payload|;
      } else {
        frames := frames + [Frame(seqNo, payload)];
      }
      seqNo := seqNo + 1;
      fileBytes := fileBytes + |payload|;
      offset := offset + c;
    }
    BoundsOf(c, plan.size, seqNo);
    if honest {
      FramesToTheEnd(c, disk, start);
      assert hash == disk;
    }
    ok := seqNo == |plan.chunkSha256| && fileBytes == plan.size && h(hash) == plan.sha256;
  }

  /** Before the first owed chunk less than the resume offset was skipped, from there on all of it. */
  lemma SkipsExactly(c: Positive, size: nat, resumeOffset: nat, k: nat)
    requires resumeOffset <= size
    ensures k < CountOf(c, resumeOffset) <==> StartAt(c, size, k) < resumeOffset
  {
    CountBounds(c, resumeOffset, k);
  }
}
