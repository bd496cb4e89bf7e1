/** Names shared by all parts of the model. */
module Common {
  /** Rust's `Option`. */
  datatype Option<+T> = None | Some(value: T)

  /** A hashed public key. Outside `PeerName` the program only compares identities for equality. */
  type PeerId = nat

  /** A socket address; the program never looks inside one. */
  type Address = nat

  /** One byte of a transport stream. */
  type Byte = b: int | 0 <= b < 256

  type Bytes = seq<Byte>

  /** Concatenation is associative; naming the instance spares the verifier the search for it. */
  lemma Assoc<T>(a: seq<T>, b: seq<T>, c: seq<T>)
    ensures (a + b) + c == a + (b + c)
  {
  }
}
