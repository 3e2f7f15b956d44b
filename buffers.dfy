/** The semantic byte buffers of oqs/src/kem.rs (`newtype_buffer!` at lines
    21-25) and the growable byte vector (`Vec<u8>`) that the operations
    allocate, let the native library fill, and then commit to a length. */
module Buffers {
  import opened Oqs

  /** Owned buffers: each exclusively owns its bytes. Once returned, an owned
      buffer is never written again, so a value is all it needs to be. */
  datatype PublicKey = PublicKey(bytes: seq<u8>) {
    function AsRef(): PublicKeyRef { PublicKeyRef(bytes) }
  }
  datatype SecretKey = SecretKey(bytes: seq<u8>) {
    function AsRef(): SecretKeyRef { SecretKeyRef(bytes) }
  }
  datatype Ciphertext = Ciphertext(bytes: seq<u8>) {
    function AsRef(): CiphertextRef { CiphertextRef(bytes) }
  }
  datatype SharedSecret = SharedSecret(bytes: seq<u8>) {
    function AsRef(): SharedSecretRef { SharedSecretRef(bytes) }
  }
  datatype EphemeralSecret = EphemeralSecret(bytes: seq<u8>) {
    function AsRef(): EphemeralSecretRef { EphemeralSecretRef(bytes) }
  }

  /** Borrowed buffers: read-only views of bytes owned elsewhere (an owned
      buffer, or a slice received from a peer). */
  datatype PublicKeyRef = PublicKeyRef(bytes: seq<u8>)
  datatype SecretKeyRef = SecretKeyRef(bytes: seq<u8>)
  datatype CiphertextRef = CiphertextRef(bytes: seq<u8>)
  datatype SharedSecretRef = SharedSecretRef(bytes: seq<u8>)
  datatype EphemeralSecretRef = EphemeralSecretRef(bytes: seq<u8>)

  /** A `Vec<u8>` as the operations use it: an allocation of fixed capacity
      (`data`), a logical length `len`, and, as ghost state, how many leading
      bytes have been initialised. Only initialised bytes may be brought under
      the logical length, which is the safety condition of `set_len`. */
  class ByteVec {
    const data: array<u8>
    var len: nat
    ghost var initialized: nat

    ghost predicate Valid()
      reads this
    {
      len <= initialized <= data.Length
    }

    function Capacity(): nat
    {
      data.Length
    }

    /** The bytes visible through the vector: the first `len` of the allocation. */
    function Bytes(): (s: seq<u8>)
      reads this, data
      requires Valid()
      ensures |s| == len
      ensures forall i :: 0 <= i < len ==> s[i] == data[i]
    {
      data[..len]
    }

    /** `Vec::with_capacity`: room for `capacity` bytes, none of them visible
        and none initialised. Rust promises at least `capacity`; the model gives
        exactly `capacity`, a simplification that changes nothing here because
        the native side writes exactly the declared length. */
    constructor WithCapacity(capacity: nat)
      ensures Valid() && fresh(data)
      ensures Capacity() == capacity && len == 0 && initialized == 0
    {
      data := new u8[capacity];
      len := 0;
      initialized := 0;
    }

    /** `Vec::set_len`: make the first `n` bytes visible. Allowed only over
        bytes that are initialised. */
    method SetLen(n: nat)
      requires Valid()
      requires n <= initialized
      modifies this
      ensures Valid() && len == n && initialized == old(initialized)
    {
      len := n;
    }
  }
}
