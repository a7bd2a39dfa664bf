/** Chunk frames on the wire, and the nonces chunks are sealed with. */
module ChunkFrames {
  import opened Prelude
  import opened Frames
  import opened SenderMachine

  const SEALED_CHUNK_SIZE: nat := CHUNK_SIZE + AES_GCM_TAG_BYTES
  const HEADER: nat := 9

  datatype ChunkFrame = ChunkFrame(fileId: int, chunkSeq: int, payload: seq<Byte>)

  predicate IsUint32(n: int) { 0 <= n < 0x1_0000_0000 }

  /** DataView.setUint32, big-endian. */
  function Uint32Bytes(n: int): (b: seq<Byte>)
    requires IsUint32(n)
    ensures |b| == 4
  {
    [n / 0x100_0000, n / 0x1_0000 % 0x100, n / 0x100 % 0x100, n % 0x100]
  }

  /** DataView.getUint32, big-endian. */
  function Uint32At(b: seq<Byte>, at: nat): int
    requires at + 4 <= |b|
  {
    FourDigits(b[at], b[at + 1], b[at + 2], b[at + 3])
  }

  function FourDigits(b0: int, b1: int, b2: int, b3: int): int {
    b0 * 0x100_0000 + b1 * 0x1_0000 + b2 * 0x100 + b3
  }

  lemma Uint32RoundTrip(n: int)
    requires IsUint32(n)
    ensures Uint32At(Uint32Bytes(n), 0) == n
  {
  }

  lemma BytesRoundTrip(b: seq<Byte>, at: nat)
    requires at + 4 <= |b|
    ensures IsUint32(Uint32At(b, at)) && Uint32Bytes(Uint32At(b, at)) == b[at..at + 4]
  {
    DigitsOf(b[at], b[at + 1], b[at + 2], b[at + 3]);
  }

  lemma DigitsOf(b0: int, b1: int, b2: int, b3: int)
    requires 0 <= b0 < 256 && 0 <= b1 < 256 && 0 <= b2 < 256 && 0 <= b3 < 256
    ensures var n := FourDigits(b0, b1, b2, b3);
            IsUint32(n) && Uint32Bytes(n) == [b0, b1, b2, b3]
  {
    var n := FourDigits(b0, b1, b2, b3);
    assert n / 0x100_0000 == b0;
    assert n / 0x1_0000 == b0 * 0x100 + b1;
    assert n / 0x100 == b0 * 0x1_0000 + b1 * 0x100 + b2;
  }

  /** The number that bytes spell with the most significant one first. */
  function BigEndian(b: seq<Byte>): nat {
    if b == [] then 0 else 256 * BigEndian(b[..|b| - 1]) + b[|b| - 1]
  }

  lemma Uint32IsBigEndian(n: int)
    requires IsUint32(n)
    ensures BigEndian(Uint32Bytes(n)) == n
  {
    var b := Uint32Bytes(n);
    assert b[..3][..2] == b[..2] && b[..2][..1] == b[..1] && b[..1][..0] == [];
    var high: int := b[0];
    assert BigEndian(b[..1]) == high && BigEndian(b[..2]) == 256 * high + b[1];
  }

  // ----- frames -----

  predicate ValidFrame(f: ChunkFrame) {
    0 <= f.fileId < 256 && IsUint32(f.chunkSeq) && |f.payload| <= SEALED_CHUNK_SIZE
  }

  function FrameBytes(f: ChunkFrame): seq<Byte>
    requires ValidFrame(f)
  {
    [f.fileId] + Uint32Bytes(f.chunkSeq) + Uint32Bytes(|f.payload|) + f.payload
  }

  /** encodeChunk: the frame is written into a fresh buffer, field by field. */
  method EncodeChunk(fileId: int, chunkSeq: int, payload: seq<Byte>) returns (ok: bool, frame: array<Byte>)
    ensures ok <==> ValidFrame(ChunkFrame(fileId, chunkSeq, payload))
    ensures ok ==> frame[..] == FrameBytes(ChunkFrame(fileId, chunkSeq, payload))
    ensures fresh(frame)
  {
    if fileId < 0 || fileId > 255 || !IsUint32(chunkSeq) || |payload| > SEALED_CHUNK_SIZE {
      frame := new Byte[0];
      return false, frame;
    }
    frame := new Byte[HEADER + |payload|];
    frame[0] := fileId;
    SetUint32(frame, 1, chunkSeq);
    SetUint32(frame, 5, |payload|);
    forall i | 0 <= i < |payload| {
      frame[HEADER + i] := payload[i];
    }
    ok := true;
    assert frame[..] == frame[..1] + frame[1..5] + frame[5..9] + frame[9..];
    assert frame[..1] == [fileId];
    assert frame[9..] == payload;
  }

  method SetUint32(a: array<Byte>, at: nat, n: int)
    requires at + 4 <= a.Length && IsUint32(n)
    modifies a
    ensures a[at..at + 4] == Uint32Bytes(n)
    ensures forall i :: 0 <= i < a.Length && !(at <= i < at + 4) ==> a[i] == old(a[i])
  {
    a[at] := n / 0x100_0000;
    a[at + 1] := n / 0x1_0000 % 0x100;
    a[at + 2] := n / 0x100 % 0x100;
    a[at + 3] := n % 0x100;
  }

  /** decodeChunk. */
  function DecodeChunk(bytes: seq<Byte>): Result<ChunkFrame> {
    if |bytes| < HEADER then Err
    else
      var payloadLen := Uint32At(bytes, 5);
      if payloadLen != |bytes| - HEADER || payloadLen > SEALED_CHUNK_SIZE then Err
      else Ok(ChunkFrame(bytes[0], Uint32At(bytes, 1), bytes[HEADER..]))
  }

  lemma DecodeOfEncode(f: ChunkFrame)
    requires ValidFrame(f)
    ensures DecodeChunk(FrameBytes(f)) == Ok(f)
  {
    var b := FrameBytes(f);
    Uint32RoundTrip(f.chunkSeq);
    Uint32RoundTrip(|f.payload|);
    assert b[1..5] == Uint32Bytes(f.chunkSeq) && b[5..9] == Uint32Bytes(|f.payload|);
    assert forall i :: 0 <= i < 4 ==> b[1 + i] == b[1..5][i] && b[5 + i] == b[5..9][i];
    assert b[HEADER..] == f.payload;
  }

  lemma EncodeOfDecode(bytes: seq<Byte>)
    requires DecodeChunk(bytes).Ok?
    ensures ValidFrame(DecodeChunk(bytes).value) && FrameBytes(DecodeChunk(bytes).value) == bytes
  {
    BytesRoundTrip(bytes, 1);
    BytesRoundTrip(bytes, 5);
    FieldsJoin(bytes, Uint32Bytes(Uint32At(bytes, 1)), Uint32Bytes(Uint32At(bytes, 5)));
  }

  lemma FieldsJoin(bytes: seq<Byte>, number: seq<Byte>, length: seq<Byte>)
    requires |bytes| >= HEADER && number == bytes[1..5] && length == bytes[5..9]
    ensures [bytes[0]] + number + length + bytes[HEADER..] == bytes
  {
  }

  /** The decoder accepts exactly the frames of the encoder, and the two undo each other. */
  lemma FramesRoundTrip(bytes: seq<Byte>, f: ChunkFrame)
    ensures DecodeChunk(bytes) == Ok(f) <==> ValidFrame(f) && FrameBytes(f) == bytes
  {
    if ValidFrame(f) {
      DecodeOfEncode(f);
    }
    if DecodeChunk(bytes).Ok? {
      EncodeOfDecode(bytes);
    }
  }

  /** Where a frame has what: the file's id, its number and its length with the most significant byte first, its payload. */
  lemma FrameLayout(f: ChunkFrame)
    requires ValidFrame(f)
    ensures var b := FrameBytes(f);
            && |b| == 9 + |f.payload| && b[0] == f.fileId && b[9..] == f.payload
            && BigEndian(b[1..5]) == f.chunkSeq && BigEndian(b[5..9]) == |f.payload|
  {
    var b := FrameBytes(f);
    assert b[1..5] == Uint32Bytes(f.chunkSeq) && b[5..9] == Uint32Bytes(|f.payload|);
    Uint32IsBigEndian(f.chunkSeq);
    Uint32IsBigEndian(|f.payload|);
  }

  // ----- nonces -----

  predicate IsAddress(fileId: int, chunkSeq: int) { 0 <= fileId < 256 && IsUint32(chunkSeq) }

  function NonceOf(fileId: int, chunkSeq: int): seq<Byte>
    requires IsAddress(fileId, chunkSeq)
  {
    [fileId, 0, 0, 0, 0, 0, 0, 0] + Uint32Bytes(chunkSeq)
  }

  method ChunkNonce(fileId: int, chunkSeq: int) returns (nonce: array<Byte>)
    requires IsAddress(fileId, chunkSeq)
    ensures fresh(nonce) && nonce[..] == NonceOf(fileId, chunkSeq)
  {
    nonce := new Byte[12](_ => 0);
    nonce[0] := fileId;
    SetUint32(nonce, 8, chunkSeq);
    assert nonce[..] == nonce[..8] + nonce[8..12];
  }

  /** Where a nonce has what. */
  lemma NonceLayout(fileId: int, chunkSeq: int)
    requires IsAddress(fileId, chunkSeq)
    ensures var b := NonceOf(fileId, chunkSeq);
            |b| == 12 && b[0] == fileId && BigEndian(b[1..8]) == 0 && BigEndian(b[8..]) == chunkSeq
  {
    var b := NonceOf(fileId, chunkSeq);
    assert b[8..] == Uint32Bytes(chunkSeq);
    Uint32IsBigEndian(chunkSeq);
    assert b[1..8] == [0, 0, 0, 0, 0, 0, 0];
    ZerosAreZero(b[1..8]);
  }

  lemma {:induction false} ZerosAreZero(b: seq<Byte>)
    requires forall i :: 0 <= i < |b| ==> b[i] == 0
    ensures BigEndian(b) == 0
  {
    if b != [] {
      ZerosAreZero(b[..|b| - 1]);
    }
  }

  /** Different chunks have different nonces. */
  lemma NonceIsInjective(f: int, k: int, g: int, j: int)
    requires IsAddress(f, k) && IsAddress(g, j)
    ensures NonceOf(f, k) == NonceOf(g, j) <==> f == g && k == j
  {
    if NonceOf(f, k) == NonceOf(g, j) {
      assert NonceOf(f, k)[0] == f && NonceOf(g, j)[0] == g;
      assert NonceOf(f, k)[8..] == Uint32Bytes(k) && NonceOf(g, j)[8..] == Uint32Bytes(j);
      Uint32RoundTrip(k);
      Uint32RoundTrip(j);
    }
  }

  /** A plan the command line accepts. */
  ghost predicate WithinFileLimits(plan: seq<SendFile>) {
    |plan| <= 100 && forall i :: 0 <= i < |plan| ==> |plan[i].content| <= MAX_FILE_BYTES
  }

  lemma ChunksFit(size: nat)
    requires size <= MAX_FILE_BYTES
    ensures NumChunks(size) <= 0x1_0000
  {
  }

  lemma SealedAddresses(plan: seq<SendFile>, h: Hash, events: seq<SenderEvent>, i: nat)
    requires WithinFileLimits(plan) && i < |SenderRun(plan, h, events).sealLog|
    ensures var at := SenderRun(plan, h, events).sealLog[i]; IsAddress(at.0, at.1)
  {
    NoChunkSealedTwice(plan, h, events);
    var at := SenderRun(plan, h, events).sealLog[i];
    ChunksFit(|plan[at.0].content|);
    assert at.1 < NumChunks(|plan[at.0].content|);
  }

  /**
   Whatever the receiver sends and however the sender's run fails, no two chunks it seals
   under its bulk key share a nonce (the uniqueness that section 8 of NIST SP 800-38D asks for).
  */
  lemma NoNonceTwice(plan: seq<SendFile>, h: Hash, events: seq<SenderEvent>, i: nat, j: nat)
    requires WithinFileLimits(plan)
    requires i < j < |SenderRun(plan, h, events).sealLog|
    ensures var log := SenderRun(plan, h, events).sealLog;
            && IsAddress(log[i].0, log[i].1) && IsAddress(log[j].0, log[j].1)
            && NonceOf(log[i].0, log[i].1) != NonceOf(log[j].0, log[j].1)
  {
    NoChunkSealedTwice(plan, h, events);
    SealedAddresses(plan, h, events, i);
    SealedAddresses(plan, h, events, j);
    var log := SenderRun(plan, h, events).sealLog;
    NonceIsInjective(log[i].0, log[i].1, log[j].0, log[j].1);
    assert log[i] != log[j];
  }
}
