/** Values shared by every module: options, bytes and content hashes. */
module Basics {
  datatype Option<+T> = None | Some(value: T)

  newtype byte = x: int | 0 <= x < 256
  type Bytes = seq<byte>

  /** SHA-256 is taken as injective: a hash is a free constructor over the hashed bytes. */
  datatype Hash = Sha256(preimage: Bytes)

  /** The value stored under a key, if any. */
  function At<K, V>(m: map<K, V>, k: K): Option<V> {
    if k in m then Some(m[k]) else None
  }

  /** The file stored under `k` exists and its content hashes to `h`. */
  predicate Holds<K>(files: map<K, Bytes>, k: K, h: Hash) {
    k in files && Sha256(files[k]) == h
  }
}
