/** The KEM handle of oqs/src/kem.rs and its operation pipeline.

    Each operation checks every caller-supplied buffer against its declared
    length and returns `InvalidLength` before any native call; it then reserves
    each output at its declared capacity, calls the native entry point, turns a
    non-success status into `OperationFailed`, and only then commits each output
    to its declared length. The functions `*Result` below say what each
    operation returns; the methods of `Kem` carry out the pipeline on `ByteVec`s
    and are proved to return exactly that. */
module Kem {
  import opened Oqs
  import opened Buffers
  import opened Algorithms
  import opened Native

  /** What `keypair` / `keypair_async` return. */
  function KeypairResult(d: Descriptor, entry: Entry, world: World): (r: Result<(PublicKey, SecretKey)>)
    requires d.Valid() && d.Keygen(entry).Some?
    ensures r.Success? <==> d.Keygen(entry).value(world).status == OQS_SUCCESS
    ensures r.Failure? ==> r.error == OperationFailed
    ensures r.Success? ==>
      |r.value.0.bytes| == d.lengthPublicKey && |r.value.1.bytes| == d.lengthSecretKey
  {
    var out := d.Keygen(entry).value(world);
    var _ :- StatusToResult(out.status);
    Success((PublicKey(out.pk), SecretKey(out.sk)))
  }

  /** What `encapsulate` / `async_encapsulate` return. */
  function EncapsulateResult(d: Descriptor, entry: Entry, pk: PublicKeyRef, world: World)
    : (r: Result<(Ciphertext, SharedSecret)>)
    requires d.Valid() && d.Encaps(entry).Some?
    ensures r == Failure(InvalidLength) <==> |pk.bytes| != d.lengthPublicKey
    ensures r.Failure? && |pk.bytes| == d.lengthPublicKey ==> r.error == OperationFailed
    ensures r.Success? <==>
      |pk.bytes| == d.lengthPublicKey && d.Encaps(entry).value(pk.bytes, world).status == OQS_SUCCESS
    ensures r.Success? ==>
      |r.value.0.bytes| == d.lengthCiphertext && |r.value.1.bytes| == d.lengthSharedSecret
  {
    if |pk.bytes| != d.lengthPublicKey then Failure(InvalidLength)
    else
      var out := d.Encaps(entry).value(pk.bytes, world);
      var _ :- StatusToResult(out.status);
      Success((Ciphertext(out.ct), SharedSecret(out.secret)))
  }

  /** What `encapsulate_ciphertext` returns. */
  function EncapsulateCiphertextResult(d: Descriptor, pk: PublicKeyRef, world: World)
    : (r: Result<(Ciphertext, EphemeralSecret)>)
    requires d.Valid() && d.encapsCiphertext.Some?
    ensures r == Failure(InvalidLength) <==> |pk.bytes| != d.lengthPublicKey
    ensures r.Failure? && |pk.bytes| == d.lengthPublicKey ==> r.error == OperationFailed
    ensures r.Success? <==>
      |pk.bytes| == d.lengthPublicKey && d.encapsCiphertext.value(pk.bytes, world).status == OQS_SUCCESS
    ensures r.Success? ==>
      |r.value.0.bytes| == d.lengthCiphertext && |r.value.1.bytes| == d.lengthEphemeralSecret
  {
    if |pk.bytes| != d.lengthPublicKey then Failure(InvalidLength)
    else
      var out := d.encapsCiphertext.value(pk.bytes, world);
      var _ :- StatusToResult(out.status);
      Success((Ciphertext(out.ct), EphemeralSecret(out.secret)))
  }

  /** The three length checks of `encapsulate_shared_secret`, in the source's
      order (public key, ciphertext, ephemeral secret). */
  predicate FinishLengthsOk(d: Descriptor, ct: CiphertextRef, es: EphemeralSecretRef, pk: PublicKeyRef)
  {
    |pk.bytes| == d.lengthPublicKey && |ct.bytes| == d.lengthCiphertext && |es.bytes| == d.lengthEphemeralSecret
  }

  /** What `encapsulate_shared_secret` returns. */
  function EncapsulateSharedSecretResult(d: Descriptor, ct: CiphertextRef, es: EphemeralSecretRef, pk: PublicKeyRef)
    : (r: Result<SharedSecret>)
    requires d.Valid() && d.encapsSharedSecret.Some?
    ensures r == Failure(InvalidLength) <==> !FinishLengthsOk(d, ct, es, pk)
    ensures r.Failure? && FinishLengthsOk(d, ct, es, pk) ==> r.error == OperationFailed
    ensures r.Success? <==>
      FinishLengthsOk(d, ct, es, pk) &&
      d.encapsSharedSecret.value(ct.bytes, es.bytes, pk.bytes).status == OQS_SUCCESS
    ensures r.Success? ==> |r.value.bytes| == d.lengthSharedSecret
  {
    if |pk.bytes| != d.lengthPublicKey then Failure(InvalidLength)
    else if |ct.bytes| != d.lengthCiphertext then Failure(InvalidLength)
    else if |es.bytes| != d.lengthEphemeralSecret then Failure(InvalidLength)
    else
      var out := d.encapsSharedSecret.value(ct.bytes, es.bytes, pk.bytes);
      var _ :- StatusToResult(out.status);
      Success(SharedSecret(out.ss))
  }

  /** What `decapsulate` returns. */
  function DecapsulateResult(d: Descriptor, sk: SecretKeyRef, ct: CiphertextRef): (r: Result<SharedSecret>)
    requires d.Valid() && d.decaps.Some?
    ensures r == Failure(InvalidLength) <==>
      |sk.bytes| != d.lengthSecretKey || |ct.bytes| != d.lengthCiphertext
    ensures r.Failure? && |sk.bytes| == d.lengthSecretKey && |ct.bytes| == d.lengthCiphertext ==>
      r.error == OperationFailed
    ensures r.Success? <==>
      |sk.bytes| == d.lengthSecretKey && |ct.bytes| == d.lengthCiphertext &&
      d.decaps.value(ct.bytes, sk.bytes).status == OQS_SUCCESS
    ensures r.Success? ==> |r.value.bytes| == d.lengthSharedSecret
  {
    if |sk.bytes| != d.lengthSecretKey || |ct.bytes| != d.lengthCiphertext then Failure(InvalidLength)
    else
      var out := d.decaps.value(ct.bytes, sk.bytes);
      var _ :- StatusToResult(out.status);
      Success(SharedSecret(out.ss))
  }

  /** `Kem`: a handle on one acquired native descriptor. The descriptor is
      never changed after acquisition, so every accessor answers the same for
      the handle's whole life; `released` records that `drop` has run. */
  class Kem {
    const algorithm: Algorithm
    const kem: Descriptor
    ghost var released: bool

    ghost predicate Valid()
      reads this
    {
      !released && kem.Valid()
    }

    /** The struct literal of `Kem::new`. In Rust the fields are private, so
        `New` is the only way to build a handle; `New` is this constructor's
        only intended caller, which pairs the tag with its own descriptor. */
    constructor FromDescriptor(algorithm: Algorithm, kem: Descriptor)
      requires kem.Valid()
      ensures Valid() && this.algorithm == algorithm && this.kem == kem
    {
      this.algorithm := algorithm;
      this.kem := kem;
      released := false;
    }

    /** `Kem::new`: acquire the descriptor of `algorithm`'s identifier; fails
        with `AlgorithmDisabled`, leaving nothing to release, when the build
        does not provide it. */
    static method New(algorithm: Algorithm, lib: Library) returns (r: Result<Kem>)
      requires lib.Valid()
      ensures r.Failure? <==> AlgorithmToId(algorithm) !in lib.kems
      ensures r.Failure? ==> r.error == AlgorithmDisabled
      ensures r.Success? ==>
        && fresh(r.value) && r.value.Valid()
        && r.value.Algorithm() == algorithm
        && r.value.kem == lib.kems[AlgorithmToId(algorithm)]
    {
      var kem := lib.KemNew(AlgorithmToId(algorithm));
      if kem.None? {
        return Failure(AlgorithmDisabled);
      }
      var handle := new Kem.FromDescriptor(algorithm, kem.value);
      r := Success(handle);
    }

    /** `drop`: free the descriptor. Requires a live handle, so it happens
        at most once, and no operation (all of which require `Valid()`) can
        follow it. */
    method Drop()
      requires Valid()
      modifies this
      ensures released
    {
      released := true;
    }

    /** `algorithm`: the tag the handle was created for. */
    function Algorithm(): (a: Algorithm)
      reads this
      requires Valid()
      ensures a == algorithm
    {
      algorithm
    }

    /** `claimed_nist_level`: the NIST level the descriptor claims. */
    function ClaimedNistLevel(): (level: u8)
      reads this
      requires Valid()
      ensures level == kem.claimedNistLevel
    {
      kem.claimedNistLevel
    }

    /** `is_ind_cca`: whether the descriptor claims IND-CCA security. */
    function IsIndCca(): (cca: bool)
      reads this
      requires Valid()
      ensures cca == kem.indCca
    {
      kem.indCca
    }

    /** `length_public_key`: the declared public-key length. */
    function LengthPublicKey(): (n: nat)
      reads this
      requires Valid()
      ensures n == kem.lengthPublicKey
    {
      kem.lengthPublicKey
    }

    /** `length_secret_key`: the declared secret-key length. */
    function LengthSecretKey(): (n: nat)
      reads this
      requires Valid()
      ensures n == kem.lengthSecretKey
    {
      kem.lengthSecretKey
    }

    /** `length_ciphertext`: the declared ciphertext length. */
    function LengthCiphertext(): (n: nat)
      reads this
      requires Valid()
      ensures n == kem.lengthCiphertext
    {
      kem.lengthCiphertext
    }

    /** `length_shared_secret`: the declared shared-secret length. */
    function LengthSharedSecret(): (n: nat)
      reads this
      requires Valid()
      ensures n == kem.lengthSharedSecret
    {
      kem.lengthSharedSecret
    }

    /** `length_ephemeral_secret`: the declared ephemeral-secret length. */
    function LengthEphemeralSecret(): (n: nat)
      reads this
      requires Valid()
      ensures n == kem.lengthEphemeralSecret
    {
      kem.lengthEphemeralSecret
    }

    /** `secret_key_from_bytes`: a view of `buf` exactly when it has the
        declared length. */
    function SecretKeyFromBytes(buf: seq<u8>): (r: Option<SecretKeyRef>)
      reads this
      requires Valid()
      ensures r.Some? <==> |buf| == LengthSecretKey()
      ensures r.Some? ==> r.value.bytes == buf
    {
      if LengthSecretKey() != |buf| then None else Some(SecretKeyRef(buf))
    }

    /** `public_key_from_bytes`. */
    function PublicKeyFromBytes(buf: seq<u8>): (r: Option<PublicKeyRef>)
      reads this
      requires Valid()
      ensures r.Some? <==> |buf| == LengthPublicKey()
      ensures r.Some? ==> r.value.bytes == buf
    {
      if LengthPublicKey() != |buf| then None else Some(PublicKeyRef(buf))
    }

    /** `ciphertext_from_bytes`. */
    function CiphertextFromBytes(buf: seq<u8>): (r: Option<CiphertextRef>)
      reads this
      requires Valid()
      ensures r.Some? <==> |buf| == LengthCiphertext()
      ensures r.Some? ==> r.value.bytes == buf
    {
      if LengthCiphertext() != |buf| then None else Some(CiphertextRef(buf))
    }

    /** `shared_secret_from_bytes`. */
    function SharedSecretFromBytes(buf: seq<u8>): (r: Option<SharedSecretRef>)
      reads this
      requires Valid()
      ensures r.Some? <==> |buf| == LengthSharedSecret()
      ensures r.Some? ==> r.value.bytes == buf
    {
      if LengthSharedSecret() != |buf| then None else Some(SharedSecretRef(buf))
    }

    /** `ephemeral_secret_from_bytes`. */
    function EphemeralSecretFromBytes(buf: seq<u8>): (r: Option<EphemeralSecretRef>)
      reads this
      requires Valid()
      ensures r.Some? <==> |buf| == LengthEphemeralSecret()
      ensures r.Some? ==> r.value.bytes == buf
    {
      if LengthEphemeralSecret() != |buf| then None else Some(EphemeralSecretRef(buf))
    }

    /** `init`: run the algorithm's setup hook; its failure status becomes
        `OperationFailed`. */
    method Init(world: World) returns (r: Result<()>)
      requires Valid() && kem.init.Some?
      ensures r.Success? <==> kem.init.value(world) == OQS_SUCCESS
      ensures r.Failure? ==> r.error == OperationFailed
    {
      var status := kem.init.value(world);
      var _ :- StatusToResult(status);
      r := Success(());
    }

    /** `deinit`: run the algorithm's teardown hook; its failure status
        becomes `OperationFailed`. */
    method Deinit(world: World) returns (r: Result<()>)
      requires Valid() && kem.deinit.Some?
      ensures r.Success? <==> kem.deinit.value(world) == OQS_SUCCESS
      ensures r.Failure? ==> r.error == OperationFailed
    {
      var status := kem.deinit.value(world);
      var _ :- StatusToResult(status);
      r := Success(());
    }

    /** The pipeline shared by `keypair` and `keypair_async`. */
    method KeypairWith(entry: Entry, world: World) returns (r: Result<(PublicKey, SecretKey)>)
      requires Valid() && kem.Keygen(entry).Some?
      ensures r == KeypairResult(kem, entry, world)
    {
      var pk := new ByteVec.WithCapacity(kem.lengthPublicKey);
      var sk := new ByteVec.WithCapacity(kem.lengthSecretKey);
      var status := Native.Keypair(kem, entry, pk, sk, world);
      var _ :- StatusToResult(status);
      pk.SetLen(kem.lengthPublicKey);
      sk.SetLen(kem.lengthSecretKey);
      assert pk.Bytes() == pk.data[..] && sk.Bytes() == sk.data[..];
      r := Success((PublicKey(pk.Bytes()), SecretKey(sk.Bytes())));
    }

    /** `keypair`: on success a public and a secret key of the declared
        lengths; on a failure status `OperationFailed` and no keys. */
    method Keypair(world: World) returns (r: Result<(PublicKey, SecretKey)>)
      requires Valid() && kem.keypair.Some?
      ensures r == KeypairResult(kem, Plain, world)
      ensures r.Success? ==>
        |r.value.0.bytes| == LengthPublicKey() && |r.value.1.bytes| == LengthSecretKey()
      ensures r.Failure? ==> r.error == OperationFailed
    {
      r := KeypairWith(Plain, world);
    }

    /** `keypair_async`: as `keypair`, through the other entry point. */
    method KeypairAsync(world: World) returns (r: Result<(PublicKey, SecretKey)>)
      requires Valid() && kem.keypairAsync.Some?
      ensures r == KeypairResult(kem, Async, world)
      ensures r.Success? ==>
        |r.value.0.bytes| == LengthPublicKey() && |r.value.1.bytes| == LengthSecretKey()
      ensures r.Failure? ==> r.error == OperationFailed
    {
      r := KeypairWith(Async, world);
    }

    /** The pipeline shared by `encapsulate` and `async_encapsulate`;
        `invoked` records whether the native entry point was called. */
    method EncapsulateWith(entry: Entry, pk: PublicKeyRef, world: World)
      returns (r: Result<(Ciphertext, SharedSecret)>, ghost invoked: bool)
      requires Valid() && kem.Encaps(entry).Some?
      ensures r == EncapsulateResult(kem, entry, pk, world)
      ensures invoked <==> |pk.bytes| == LengthPublicKey()
    {
      invoked := false;
      if |pk.bytes| != LengthPublicKey() {
        return Failure(InvalidLength), invoked;
      }
      var ct := new ByteVec.WithCapacity(kem.lengthCiphertext);
      var ss := new ByteVec.WithCapacity(kem.lengthSharedSecret);
      var status := Native.Encaps(kem, kem.Encaps(entry).value, kem.lengthSharedSecret, ct, ss, pk.bytes, world);
      invoked := true;
      var _ :- StatusToResult(status);
      ct.SetLen(kem.lengthCiphertext);
      ss.SetLen(kem.lengthSharedSecret);
      assert ct.Bytes() == ct.data[..] && ss.Bytes() == ss.data[..];
      r := Success((Ciphertext(ct.Bytes()), SharedSecret(ss.Bytes())));
    }

    /** `encapsulate`: a public key of the wrong length is refused with
        `InvalidLength` before the native call; on success a ciphertext and a
        shared secret of the declared lengths. */
    method Encapsulate(pk: PublicKeyRef, world: World)
      returns (r: Result<(Ciphertext, SharedSecret)>, ghost invoked: bool)
      requires Valid() && kem.encaps.Some?
      ensures r == EncapsulateResult(kem, Plain, pk, world)
      ensures invoked <==> |pk.bytes| == LengthPublicKey()
      ensures !invoked ==> r == Failure(InvalidLength)
      ensures r.Failure? && invoked ==> r.error == OperationFailed
      ensures r.Success? ==>
        |r.value.0.bytes| == LengthCiphertext() && |r.value.1.bytes| == LengthSharedSecret()
    {
      r, invoked := EncapsulateWith(Plain, pk, world);
    }

    /** `async_encapsulate`: as `encapsulate`, through the other entry point. */
    method AsyncEncapsulate(pk: PublicKeyRef, world: World)
      returns (r: Result<(Ciphertext, SharedSecret)>, ghost invoked: bool)
      requires Valid() && kem.asyncEncaps.Some?
      ensures r == EncapsulateResult(kem, Async, pk, world)
      ensures invoked <==> |pk.bytes| == LengthPublicKey()
      ensures !invoked ==> r == Failure(InvalidLength)
      ensures r.Failure? && invoked ==> r.error == OperationFailed
      ensures r.Success? ==>
        |r.value.0.bytes| == LengthCiphertext() && |r.value.1.bytes| == LengthSharedSecret()
    {
      r, invoked := EncapsulateWith(Async, pk, world);
    }

    /** `encapsulate_ciphertext`: as `encapsulate`, but the second output is an
        ephemeral secret of the declared ephemeral-secret length. */
    method EncapsulateCiphertext(pk: PublicKeyRef, world: World)
      returns (r: Result<(Ciphertext, EphemeralSecret)>, ghost invoked: bool)
      requires Valid() && kem.encapsCiphertext.Some?
      ensures r == EncapsulateCiphertextResult(kem, pk, world)
      ensures invoked <==> |pk.bytes| == LengthPublicKey()
      ensures !invoked ==> r == Failure(InvalidLength)
      ensures r.Failure? && invoked ==> r.error == OperationFailed
      ensures r.Success? ==>
        |r.value.0.bytes| == LengthCiphertext() && |r.value.1.bytes| == LengthEphemeralSecret()
    {
      invoked := false;
      if |pk.bytes| != LengthPublicKey() {
        return Failure(InvalidLength), invoked;
      }
      var ct := new ByteVec.WithCapacity(kem.lengthCiphertext);
      var es := new ByteVec.WithCapacity(kem.lengthEphemeralSecret);
      var status := Native.Encaps(kem, kem.encapsCiphertext.value, kem.lengthEphemeralSecret, ct, es, pk.bytes, world);
      invoked := true;
      var _ :- StatusToResult(status);
      ct.SetLen(kem.lengthCiphertext);
      es.SetLen(kem.lengthEphemeralSecret);
      assert ct.Bytes() == ct.data[..] && es.Bytes() == es.data[..];
      r := Success((Ciphertext(ct.Bytes()), EphemeralSecret(es.Bytes())));
    }

    /** `encapsulate_shared_secret`: checks the public key, then the
        ciphertext, then the ephemeral secret, each against its own declared
        length, and refuses with `InvalidLength` at the first mismatch without
        a native call; on success a shared secret of the declared length. */
    method EncapsulateSharedSecret(ct: CiphertextRef, es: EphemeralSecretRef, pk: PublicKeyRef)
      returns (r: Result<SharedSecret>, ghost invoked: bool)
      requires Valid() && kem.encapsSharedSecret.Some?
      ensures r == EncapsulateSharedSecretResult(kem, ct, es, pk)
      ensures invoked <==> FinishLengthsOk(kem, ct, es, pk)
      ensures !invoked ==> r == Failure(InvalidLength)
      ensures r.Failure? && invoked ==> r.error == OperationFailed
      ensures r.Success? ==> |r.value.bytes| == LengthSharedSecret()
    {
      invoked := false;
      if |pk.bytes| != LengthPublicKey() {
        return Failure(InvalidLength), invoked;
      }
      if |ct.bytes| != kem.lengthCiphertext {
        return Failure(InvalidLength), invoked;
      }
      if |es.bytes| != kem.lengthEphemeralSecret {
        return Failure(InvalidLength), invoked;
      }
      var ss := new ByteVec.WithCapacity(kem.lengthSharedSecret);
      var status := Native.EncapsSharedSecret(kem, ss, ct.bytes, es.bytes, pk.bytes);
      invoked := true;
      var _ :- StatusToResult(status);
      ss.SetLen(kem.lengthSharedSecret);
      assert ss.Bytes() == ss.data[..];
      r := Success(SharedSecret(ss.Bytes()));
    }

    /** `decapsulate`: a secret key or ciphertext of the wrong length is
        refused with `InvalidLength` without a native call; on success a
        shared secret of the declared length. */
    method Decapsulate(sk: SecretKeyRef, ct: CiphertextRef)
      returns (r: Result<SharedSecret>, ghost invoked: bool)
      requires Valid() && kem.decaps.Some?
      ensures r == DecapsulateResult(kem, sk, ct)
      ensures invoked <==> |sk.bytes| == LengthSecretKey() && |ct.bytes| == LengthCiphertext()
      ensures !invoked ==> r == Failure(InvalidLength)
      ensures r.Failure? && invoked ==> r.error == OperationFailed
      ensures r.Success? ==> |r.value.bytes| == LengthSharedSecret()
    {
      invoked := false;
      if |sk.bytes| != LengthSecretKey() || |ct.bytes| != LengthCiphertext() {
        return Failure(InvalidLength), invoked;
      }
      var ss := new ByteVec.WithCapacity(kem.lengthSharedSecret);
      var status := Native.Decaps(kem, ss, ct.bytes, sk.bytes);
      invoked := true;
      var _ :- StatusToResult(status);
      ss.SetLen(kem.lengthSharedSecret);
      assert ss.Bytes() == ss.data[..];
      r := Success(SharedSecret(ss.Bytes()));
    }
  }

  /** The pipeline's fundamental correctness contract (the encaps/decaps test
      and the documentation example of kem.rs): under the assumed native KEM
      contract, keys from either key generator are accepted by either
      encapsulator, which then fails only through the native status, and
      decapsulating its ciphertext with the secret key recovers its shared
      secret. */
  lemma EncapsDecapsRoundTrip(d: Descriptor, kg: Entry, en: Entry, kw: World, ew: World)
    requires d.Valid() && d.Correct()
    requires d.Keygen(kg).Some? && d.Encaps(en).Some? && d.decaps.Some?
    ensures var k := KeypairResult(d, kg, kw);
      k.Success? ==>
        var e := EncapsulateResult(d, en, k.value.0.AsRef(), ew);
        && (e.Failure? ==> e.error == OperationFailed)
        && (e.Success? ==> DecapsulateResult(d, k.value.1.AsRef(), e.value.0.AsRef()) == Success(e.value.1))
  {
  }

  /** Split-path equivalence: under the assumed native KEM contract, the
      shared secret finished from `encapsulate_ciphertext`'s outputs and the
      public key equals the one `decapsulate` recovers with the secret key. */
  lemma SplitPathAgrees(d: Descriptor, kg: Entry, kw: World, ew: World)
    requires d.Valid() && d.Correct()
    requires d.Keygen(kg).Some? && d.encapsCiphertext.Some? && d.encapsSharedSecret.Some? && d.decaps.Some?
    ensures var k := KeypairResult(d, kg, kw);
      k.Success? ==>
        var e := EncapsulateCiphertextResult(d, k.value.0.AsRef(), ew);
        && (e.Failure? ==> e.error == OperationFailed)
        && (e.Success? ==>
              var finished := EncapsulateSharedSecretResult(d, e.value.0.AsRef(), e.value.1.AsRef(), k.value.0.AsRef());
              finished.Success? && finished == DecapsulateResult(d, k.value.1.AsRef(), e.value.0.AsRef()))
  {
  }

  /** The per-algorithm encaps/decaps test of kem.rs: create a handle, generate
      a key pair, encapsulate to the public key, decapsulate with the secret
      key, and check that both shared secrets are equal. Under the assumed
      native KEM contract the check never fails; the test itself can fail only
      because the algorithm is disabled or a native call reports failure, and
      never with `InvalidLength`. */
  method EncapsDecapsTest(algorithm: Algorithm, lib: Library, kw: World, ew: World) returns (r: Result<()>)
    requires lib.Valid()
    requires forall id | id in lib.kems ::
      && lib.kems[id].Correct()
      && lib.kems[id].keypair.Some? && lib.kems[id].encaps.Some? && lib.kems[id].decaps.Some?
    ensures r.Failure? ==> r.error != InvalidLength
    ensures r.Failure? && r.error == AlgorithmDisabled <==> AlgorithmToId(algorithm) !in lib.kems
    ensures r.Success? <==>
      && AlgorithmToId(algorithm) in lib.kems
      && var d := lib.kems[AlgorithmToId(algorithm)];
         var k := KeypairResult(d, Plain, kw);
         k.Success? && EncapsulateResult(d, Plain, k.value.0.AsRef(), ew).Success?
  {
    var kem :- Kem.New(algorithm, lib);
    var keys := kem.Keypair(kw);
    if keys.Failure? {
      kem.Drop();
      return Failure(keys.error);
    }
    var (pk, sk) := keys.value;
    var encapsulated, _ := kem.Encapsulate(pk.AsRef(), ew);
    if encapsulated.Failure? {
      kem.Drop();
      return Failure(encapsulated.error);
    }
    var (ct, ss1) := encapsulated.value;
    EncapsDecapsRoundTrip(kem.kem, Plain, Plain, kw, ew);
    var decapsulated, _ := kem.Decapsulate(sk.AsRef(), ct.AsRef());
    var ss2 := decapsulated.value;
    assert ss1 == ss2;
    kem.Drop();
    r := Success(());
  }
}
