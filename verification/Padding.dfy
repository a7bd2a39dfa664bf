/**
 Padding of manifests and signals: whatever is inside, the sealed text has one of 36 lengths.

 Encryption is an unknown function that adds a tag of 16 bytes.
*/
module Padding {
  import opened Prelude
  import opened Utf16
  import opened JsonPreflight
  import opened JsonReader
  import opened JsonRoundTrip
  import Utf8Decoder
  import opened Base64

  const BUCKET: nat := 4096
  const NONCE_BYTES: nat := 12
  const BUCKETS: nat := 36

  /** The `t` / payload / `pad` wrapper of a manifest or a signal. */
  function Wrapper(tag: Text, name: Text, payload: Json, pad: Text): Json {
    Obj(Content(tag, name, payload) + [Prop(PAD_KEY, Str(pad), true)])
  }

  const PAD_KEY: Text := [0x70, 0x61, 0x64]

  function Content(tag: Text, name: Text, payload: Json): seq<Prop> {
    [Prop([0x74], Str(tag), true), Prop(name, payload, true)]
  }

  /** The letter A, `n` times. */
  function As(n: nat): Text { seq(n, i => 0x41) }

  /** manifestPaddingTargetBytes and signalPaddingTargetBytes. */
  function Target(byteLength: nat): Result<nat> {
    if byteLength > MAX_PLAINTEXT_BYTES then Err
    else
      var bucketed := (byteLength + BUCKET - 1) / BUCKET * BUCKET;
      Ok(if Max(bucketed, BUCKET) <= MAX_PLAINTEXT_BYTES then Max(bucketed, BUCKET) else MAX_PLAINTEXT_BYTES)
  }

  /** A length that padding may reach: a positive number of whole buckets, or the maximum. */
  predicate IsTarget(n: nat) { (n % BUCKET == 0 && 0 < n <= MAX_PLAINTEXT_BYTES) || n == MAX_PLAINTEXT_BYTES }

  /** The target is the least length of that kind that is not below the given one. */
  lemma TargetIsLeast(byteLength: nat)
    requires byteLength <= MAX_PLAINTEXT_BYTES
    ensures var t := Target(byteLength).value;
            && IsTarget(t) && byteLength <= t
            && forall other: nat :: IsTarget(other) && byteLength <= other ==> t <= other
  {
    var t := Target(byteLength).value;
    forall other: nat | IsTarget(other) && byteLength <= other
      ensures t <= other
    {
      if other % BUCKET == 0 {
        assert other == other / BUCKET * BUCKET;
      }
    }
  }

  lemma TargetBounds(byteLength: nat)
    requires byteLength <= MAX_PLAINTEXT_BYTES
    ensures byteLength <= Target(byteLength).value <= MAX_PLAINTEXT_BYTES
  {
  }

  /** The targets are the first 36 buckets, the last one cut at the maximum. */
  function BucketSize(bucket: nat): nat {
    if bucket * BUCKET <= MAX_PLAINTEXT_BYTES then bucket * BUCKET else MAX_PLAINTEXT_BYTES
  }

  lemma TargetIsBucket(byteLength: nat)
    requires byteLength <= MAX_PLAINTEXT_BYTES
    ensures var bucket := Max((byteLength + BUCKET - 1) / BUCKET, 1);
            1 <= bucket <= BUCKETS && Target(byteLength) == Ok(BucketSize(bucket))
  {
  }

  lemma {:induction false} CostOfAs(n: nat)
    ensures TextCost(As(n)) == n
  {
    if n > 0 {
      CostOfAs(n - 1);
      assert As(n)[1..] == As(n - 1);
    }
  }

  /** Padding adds its length and nothing else. */
  lemma WrapperCost(tag: Text, name: Text, payload: Json, pad: Text)
    ensures var c, d := CostOf(Wrapper(tag, name, payload, [])), CostOf(Wrapper(tag, name, payload, pad));
            d == c.(bytes := c.bytes + TextCost(pad))
  {
    LastPropCost(Content(tag, name, payload), PAD_KEY, []);
    LastPropCost(Content(tag, name, payload), PAD_KEY, pad);
  }

  lemma LastPropCost(props: seq<Prop>, name: Text, pad: Text)
    ensures var c := CostOfProps(props);
            CostOfProps(props + [Prop(name, Str(pad), true)]) ==
              Cost(c.bytes + (if CountIncluded(props) > 0 then 1 else 0) + 2 + TextCost(name) + 1 + 2 + TextCost(pad),
                   c.nodes + 1, Max(c.height, 1), c.sound)
  {
    var all := props + [Prop(name, Str(pad), true)];
    assert all[..|all| - 1] == props;
  }

  function PrintedLength(v: Json): nat { |Utf8(Print(v))| }

  /** The padded value prints to exactly the target of the unpadded one. */
  predicate PadsTo(unpadded: Json, padded: Json) { Target(PrintedLength(unpadded)) == Ok(PrintedLength(padded)) }

  /** paddedManifestWrapper and paddedSignalWrapper. */
  method PadWrapper(tag: Text, name: Text, payload: Json) returns (r: Result<Json>)
    ensures r.Ok? <==> Encryptable(Wrapper(tag, name, payload, []))
    ensures r.Ok? ==> exists n: nat :: r.value == Wrapper(tag, name, payload, As(n))
    ensures r.Ok? ==> Encryptable(r.value) && PadsTo(Wrapper(tag, name, payload, []), r.value)
    ensures r.Ok? ==> ReadsAsWrapper(Print(r.value), tag, name, payload)
  {
    var wrapper := Wrapper(tag, name, payload, []);
    var base := StringifyJsonValue(wrapper);
    if base.Err? {
      return Err;
    }
    var baseLength := |Utf8(base.value)|;
    TargetBounds(baseLength);
    var target := Target(baseLength).value;
    var n: nat := target - baseLength;
    PaddedBy(tag, name, payload, wrapper, n);
    var padded := Wrapper(tag, name, payload, As(n));
    assert PrintedLength(padded) == target && PrintedLength(wrapper) == baseLength;
    WrapperReads(tag, name, payload, n);
    r := Ok(padded);
  }

  /** The text is an object of the tag, the payload if there is one, and padding. */
  ghost predicate ReadsAsWrapper(text: Text, tag: Text, name: Text, payload: Json) {
    exists pad: Text :: ReadJson(text) == Some(VObject(WrapperMembers(tag, name, payload, pad)))
  }

  function WrapperMembers(tag: Text, name: Text, payload: Json, pad: Text): seq<Member> {
    [Member([0x74], VString(tag))]
    + (if payload.Unset? then [] else [Member(name, Plain(payload))])
    + [Member([0x70, 0x61, 0x64], VString(pad))]
  }

  /** Whoever reads the padded text gets the tag, the payload, and padding to throw away. */
  lemma WrapperReads(tag: Text, name: Text, payload: Json, n: nat)
    requires CostOf(Wrapper(tag, name, payload, As(n))).sound
    ensures ReadsAsWrapper(Print(Wrapper(tag, name, payload, As(n))), tag, name, payload)
  {
    PrintReadsBack(Wrapper(tag, name, payload, As(n)));
    var props := Content(tag, name, payload) + [Prop(PAD_KEY, Str(As(n)), true)];
    assert props[..2] == Content(tag, name, payload) && props[..2][..1] == [Prop([0x74], Str(tag), true)];
    assert PlainProps(props[..2][..1]) == [Member([0x74], VString(tag))];
    assert PlainProps(props) == WrapperMembers(tag, name, payload, As(n));
  }

  // ----- sealing -----

  type Cipher = f: seq<Byte> -> seq<Byte> | forall p: seq<Byte> :: |f(p)| == |p| + AES_GCM_TAG_BYTES
    ghost witness (p: seq<Byte>) => p + seq(16, i => 0)

  function SealedLength(plaintextLength: nat): nat { EncodedLength(NONCE_BYTES + plaintextLength + AES_GCM_TAG_BYTES) }

  /** A plaintext within the byte limit is exactly one whose sealed text is within the text limit. */
  lemma LimitsAgree(plaintextLength: nat)
    ensures SealedLength(plaintextLength) <= MAX_ENCRYPTED_JSON_CHARS <==> plaintextLength <= MAX_PLAINTEXT_BYTES
  {
  }

  /** Whoever decrypts the plaintext can decode and read it, and gets what JSON can hold of the value. */
  predicate OpensTo(plaintext: seq<Byte>, v: Json) {
    Utf8Decoder.Decode(plaintext).Some? && ReadJson(Utf8Decoder.Decode(plaintext).value) == Some(Plain(v))
  }

  /** sealJson; the two length checks after printing cannot fail. */
  method SealJson(v: Json, nonce: seq<Byte>, ghost encrypt: Cipher, ciphertext: seq<Byte>) returns (r: Result<Text>)
    requires |nonce| == NONCE_BYTES && ciphertext == encrypt(Utf8(Print(v)))
    ensures r.Ok? <==> Encryptable(v)
    ensures r.Ok? ==> r.value == Encode(nonce + ciphertext) && |r.value| == SealedLength(|Utf8(Print(v))|)
    ensures r.Ok? ==> OpensTo(Utf8(Print(v)), v)
    ensures r.Ok? ==> ToBytes(r.value, MAX_ENCRYPTED_JSON_CHARS) == Ok(nonce + ciphertext)
  {
    var serialized := StringifyJsonValue(v);
    if serialized.Err? {
      return Err;
    }
    assert serialized.value == Print(v);
    var encoded := Encode(nonce + ciphertext);
    EncodeIsCanonical(nonce + ciphertext);
    LimitsAgree(|Utf8(serialized.value)|);
    assert |encoded| <= MAX_ENCRYPTED_JSON_CHARS;
    BytesRoundTrip(nonce + ciphertext, MAX_ENCRYPTED_JSON_CHARS);
    return Ok(encoded);
  }

  /** The bucket of a printed length, from 1 to 36. */
  function BucketOf(length: nat): nat { Max((length + BUCKET - 1) / BUCKET, 1) }

  /**
   What an observer sees of a padded value: the sealed text has the length of the bucket of
   the unpadded one, one of 36 lengths, and is within the text limit.
  */
  lemma SealedLengthIsOneOf36(unpadded: Json, padded: Json)
    requires PadsTo(unpadded, padded)
    ensures var bucket := BucketOf(PrintedLength(unpadded));
            && 1 <= bucket <= BUCKETS
            && SealedLength(PrintedLength(padded)) == SealedLength(BucketSize(bucket)) <= MAX_ENCRYPTED_JSON_CHARS
  {
    BucketLength(PrintedLength(unpadded));
  }

  /** Two values look the same when sealed exactly if their buckets are the same. */
  lemma SameBucketSameLength(u: Json, p: Json, v: Json, q: Json)
    requires PadsTo(u, p) && PadsTo(v, q)
    ensures SealedLength(PrintedLength(p)) == SealedLength(PrintedLength(q))
            <==> BucketOf(PrintedLength(u)) == BucketOf(PrintedLength(v))
  {
    BucketLength(PrintedLength(u));
    BucketLength(PrintedLength(v));
    BucketsDiffer(BucketOf(PrintedLength(u)), BucketOf(PrintedLength(v)));
  }

  /** Different buckets have different sealed lengths. */
  lemma BucketsDiffer(a: nat, b: nat)
    requires 1 <= a <= BUCKETS && 1 <= b <= BUCKETS
    ensures SealedLength(BucketSize(a)) == SealedLength(BucketSize(b)) <==> a == b
  {
  }

  lemma BucketLength(base: nat)
    requires base <= MAX_PLAINTEXT_BYTES
    ensures base <= Target(base).value <= MAX_PLAINTEXT_BYTES
    ensures var bucket := BucketOf(base);
            && 1 <= bucket <= BUCKETS
            && SealedLength(Target(base).value) == SealedLength(BucketSize(bucket)) <= MAX_ENCRYPTED_JSON_CHARS
  {
    TargetIsBucket(base);
    TargetBounds(base);
    LimitsAgree(Target(base).value);
  }

  /** A wrapper padded by `n` prints `n` bytes more, and may be encrypted if the unpadded one may and it fits. */
  lemma PaddedBy(tag: Text, name: Text, payload: Json, empty: Json, n: nat)
    requires Encryptable(empty) && empty == Wrapper(tag, name, payload, [])
    requires |Utf8(Print(empty))| + n <= MAX_PLAINTEXT_BYTES
    ensures Encryptable(Wrapper(tag, name, payload, As(n)))
    ensures |Utf8(Print(Wrapper(tag, name, payload, As(n))))| == |Utf8(Print(empty))| + n
  {
    PadLength(tag, name, payload, n);
    StaysEncryptable(empty, Wrapper(tag, name, payload, As(n)));
  }

  /** Only the length can tell a padded value from an unpadded one. */
  lemma StaysEncryptable(v: Json, w: Json)
    requires Encryptable(v) && |Utf8(Print(w))| <= MAX_PLAINTEXT_BYTES
    requires CostOf(w).sound && CostOf(w).nodes == CostOf(v).nodes && CostOf(w).height == CostOf(v).height
    ensures Encryptable(w)
  {
  }

  /** Padding with A's lengthens the printed form by their number. */
  lemma PadLength(tag: Text, name: Text, payload: Json, n: nat)
    requires CostOf(Wrapper(tag, name, payload, [])).sound
    ensures var c, d := CostOf(Wrapper(tag, name, payload, [])), CostOf(Wrapper(tag, name, payload, As(n)));
            && d.sound && d.nodes == c.nodes && d.height == c.height
            && |Utf8(Print(Wrapper(tag, name, payload, As(n))))| == |Utf8(Print(Wrapper(tag, name, payload, [])))| + n
  {
    WrapperCost(tag, name, payload, As(n));
    CostOfAs(n);
    CostIsPrinted(Wrapper(tag, name, payload, []));
    CostIsPrinted(Wrapper(tag, name, payload, As(n)));
  }
}
