/** Values shared by all modules. */
module Prelude {

  datatype Option<+T> = None | Some(value: T)

  datatype Result<+T> = Ok(value: T) | Err

  type Byte = b: int | 0 <= b < 256

  /** What AES-GCM adds to a plaintext. */
  const AES_GCM_TAG_BYTES: nat := 16

  function Min(a: int, b: int): int { if a < b then a else b }

  function Max(a: int, b: int): int { if a < b then b else a }

  /** Removing a present key shrinks a map by exactly one entry. */
  lemma SizeAfterRemove<K, V>(m: map<K, V>, k: K)
    ensures k in m ==> |m - {k}| == |m| - 1
    ensures k !in m ==> m - {k} == m
  {
    assert (m - {k}).Keys == m.Keys - {k};
  }

  /** Writing a key grows a map by one entry exactly when the key is new. */
  lemma SizeAfterUpdate<K, V>(m: map<K, V>, k: K, v: V)
    ensures |m[k := v]| == if k in m then |m| else |m| + 1
  {
    assert m[k := v].Keys == m.Keys + {k};
  }
}
