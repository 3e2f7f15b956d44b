/** The native KEM library (liboqs) as kem.rs sees it through its bindings:
    an acquisition function that yields a descriptor or nothing, and, per
    descriptor, five declared lengths, two metadata fields and a table of entry
    points. The entry points are opaque: each is modelled as a function from its
    inputs (and, where it draws randomness or touches process-wide state, a
    `World`) to a status and the bytes it writes. What the native side promises
    (output sizes) and what the round-trip tests rely on (KEM correctness) are
    stated as predicates that callers assume. */
module Native {
  import opened Oqs
  import opened Buffers
  import opened Algorithms

  /** What a native call observes besides its arguments: its random-byte
      source and any process-wide state. */
  type World = nat

  datatype KeypairOut = KeypairOut(status: Status, pk: seq<u8>, sk: seq<u8>)
  /** Output of an encapsulation: a ciphertext and a secret (the shared secret
      for `encaps`, the ephemeral secret for `encaps_ciphertext`). */
  datatype EncapsOut = EncapsOut(status: Status, ct: seq<u8>, secret: seq<u8>)
  datatype SecretOut = SecretOut(status: Status, ss: seq<u8>)

  /** `keypair(pk, sk)` and `keypair_async(pk, sk)`. */
  type KeypairFn = World -> KeypairOut
  /** `encaps(ct, ss, pk)`, `async_encaps(ct, ss, pk)`, `encaps_ciphertext(ct, es, pk)`. */
  type EncapsFn = (seq<u8>, World) -> EncapsOut
  /** `encaps_shared_secret(ss, ct, es, pk)`, arguments in the order ct, es, pk. */
  type FinishFn = (seq<u8>, seq<u8>, seq<u8>) -> SecretOut
  /** `decaps(ss, ct, sk)`, arguments in the order ct, sk. */
  type DecapsFn = (seq<u8>, seq<u8>) -> SecretOut
  /** `init()` and `deinit()`. */
  type HookFn = World -> Status

  /** Which of the two entry points that share a signature: the plain one or the
      one the bindings name "async". */
  datatype Entry = Plain | Async

  /** `keygen` writes exactly the declared number of bytes into each output. */
  ghost predicate KeypairFits(keygen: KeypairFn, lengthPublicKey: nat, lengthSecretKey: nat)
  {
    forall w :: |keygen(w).pk| == lengthPublicKey && |keygen(w).sk| == lengthSecretKey
  }

  /** Given a public key of the declared length, `encaps` writes exactly the
      declared number of bytes into each output. */
  ghost predicate EncapsFits(encaps: EncapsFn, lengthPublicKey: nat, lengthCiphertext: nat, lengthSecret: nat)
  {
    forall pk, w | |pk| == lengthPublicKey ::
      |encaps(pk, w).ct| == lengthCiphertext && |encaps(pk, w).secret| == lengthSecret
  }

  ghost predicate FinishFits(finish: FinishFn, lengthCiphertext: nat, lengthEphemeralSecret: nat,
                             lengthPublicKey: nat, lengthSharedSecret: nat)
  {
    forall ct, es, pk | |ct| == lengthCiphertext && |es| == lengthEphemeralSecret && |pk| == lengthPublicKey ::
      |finish(ct, es, pk).ss| == lengthSharedSecret
  }

  ghost predicate DecapsFits(decaps: DecapsFn, lengthCiphertext: nat, lengthSecretKey: nat, lengthSharedSecret: nat)
  {
    forall ct, sk | |ct| == lengthCiphertext && |sk| == lengthSecretKey ::
      |decaps(ct, sk).ss| == lengthSharedSecret
  }

  /** The KEM correctness relation of one key generator, encapsulator and
      decapsulator: when generation and encapsulation succeed, decapsulating
      the ciphertext with the secret key succeeds and recovers the secret. */
  ghost predicate RecoversSecret(keygen: KeypairFn, encaps: EncapsFn, decaps: DecapsFn)
  {
    forall kw, ew ::
      var k := keygen(kw);
      var e := encaps(k.pk, ew);
      k.status == OQS_SUCCESS && e.status == OQS_SUCCESS ==>
        decaps(e.ct, k.sk) == SecretOut(OQS_SUCCESS, e.secret)
  }

  /** The split path's relation: the shared secret finished from the ciphertext,
      the ephemeral secret and the public key is the one decapsulation yields. */
  ghost predicate SplitAgrees(keygen: KeypairFn, encapsCiphertext: EncapsFn, finish: FinishFn, decaps: DecapsFn)
  {
    forall kw, ew ::
      var k := keygen(kw);
      var e := encapsCiphertext(k.pk, ew);
      k.status == OQS_SUCCESS && e.status == OQS_SUCCESS ==>
        finish(e.ct, e.secret, k.pk).status == OQS_SUCCESS &&
        finish(e.ct, e.secret, k.pk) == decaps(e.ct, k.sk)
  }

  /** `OQS_KEM`: the descriptor the native library hands out for an algorithm.
      Lengths are `usize` in the bindings; they are only ever compared, so they
      are modelled as unbounded naturals. An absent entry point is `None`. */
  datatype Descriptor = Descriptor(
    claimedNistLevel: u8,
    indCca: bool,
    lengthPublicKey: nat,
    lengthSecretKey: nat,
    lengthCiphertext: nat,
    lengthSharedSecret: nat,
    lengthEphemeralSecret: nat,
    keypair: Option<KeypairFn>,
    keypairAsync: Option<KeypairFn>,
    encaps: Option<EncapsFn>,
    asyncEncaps: Option<EncapsFn>,
    encapsCiphertext: Option<EncapsFn>,
    encapsSharedSecret: Option<FinishFn>,
    decaps: Option<DecapsFn>,
    init: Option<HookFn>,
    deinit: Option<HookFn>)
  {
    function Keygen(entry: Entry): Option<KeypairFn>
    {
      match entry
      case Plain => keypair
      case Async => keypairAsync
    }

    function Encaps(entry: Entry): Option<EncapsFn>
    {
      match entry
      case Plain => encaps
      case Async => asyncEncaps
    }

    /** The native size contract: every entry point present writes exactly
        the declared number of bytes into each output it is given. */
    ghost predicate Valid()
    {
      && (forall entry :: Keygen(entry).Some? ==>
            KeypairFits(Keygen(entry).value, lengthPublicKey, lengthSecretKey))
      && (forall entry :: Encaps(entry).Some? ==>
            EncapsFits(Encaps(entry).value, lengthPublicKey, lengthCiphertext, lengthSharedSecret))
      && (encapsCiphertext.Some? ==>
            EncapsFits(encapsCiphertext.value, lengthPublicKey, lengthCiphertext, lengthEphemeralSecret))
      && (encapsSharedSecret.Some? ==>
            FinishFits(encapsSharedSecret.value, lengthCiphertext, lengthEphemeralSecret, lengthPublicKey, lengthSharedSecret))
      && (decaps.Some? ==>
            DecapsFits(decaps.value, lengthCiphertext, lengthSecretKey, lengthSharedSecret))
    }

    /** The assumed cryptographic contract: every pairing of a present key
        generator with a present encapsulator is undone by `decaps`, and the
        split path agrees with `decaps`. Not provable here; assumed by the
        round-trip lemmas. */
    ghost predicate Correct()
    {
      && (forall kg, en :: Keygen(kg).Some? && Encaps(en).Some? && decaps.Some? ==>
            RecoversSecret(Keygen(kg).value, Encaps(en).value, decaps.value))
      && (forall kg :: Keygen(kg).Some? && encapsCiphertext.Some? && encapsSharedSecret.Some? && decaps.Some? ==>
            SplitAgrees(Keygen(kg).value, encapsCiphertext.value, encapsSharedSecret.value, decaps.value))
    }
  }

  /** The linked native build: the descriptors it can hand out, by identifier.
      An algorithm compiled out of the build has no entry. */
  datatype Library = Library(kems: map<AlgorithmId, Descriptor>) {
    ghost predicate Valid()
    {
      forall id | id in kems :: kems[id].Valid()
    }

    /** `OQS_KEM_new`: a descriptor, or null for an algorithm the build lacks. */
    function KemNew(id: AlgorithmId): (d: Option<Descriptor>)
      ensures d.Some? <==> id in kems
    {
      if id in kems then Some(kems[id]) else None
    }
  }

  /** The bytes the native side wrote into `v`: its whole capacity, initialised. */
  ghost predicate Filled(v: ByteVec, bytes: seq<u8>)
    reads v, v.data
  {
    v.initialized == v.Capacity() && v.data[..] == bytes
  }

  /** A native write through `v`'s raw pointer: fills the whole capacity and
      leaves the logical length alone. */
  method Write(v: ByteVec, bytes: seq<u8>)
    requires v.Valid() && |bytes| == v.Capacity()
    modifies v, v.data
    ensures v.Valid() && v.len == old(v.len) && Filled(v, bytes)
  {
    forall i | 0 <= i < v.data.Length {
      v.data[i] := bytes[i];
    }
    v.initialized := v.data.Length;
  }

  /** Calls `keypair` or `keypair_async`. The native side trusts the capacities
      of the output buffers, so they must be exactly the declared lengths. */
  method Keypair(d: Descriptor, entry: Entry, pk: ByteVec, sk: ByteVec, world: World) returns (status: Status)
    requires d.Valid() && d.Keygen(entry).Some?
    requires pk.Valid() && sk.Valid() && pk != sk && pk.data != sk.data
    requires pk.Capacity() == d.lengthPublicKey && sk.Capacity() == d.lengthSecretKey
    modifies pk, pk.data, sk, sk.data
    ensures pk.Valid() && pk.len == old(pk.len) && sk.Valid() && sk.len == old(sk.len)
    ensures status == d.Keygen(entry).value(world).status
    ensures status == OQS_SUCCESS ==>
      Filled(pk, d.Keygen(entry).value(world).pk) && Filled(sk, d.Keygen(entry).value(world).sk)
  {
    var out := d.Keygen(entry).value(world);
    Write(pk, out.pk);
    Write(sk, out.sk);
    status := out.status;
  }

  /** Calls `encaps`, `async_encaps` (shared secret in `secret`) or
      `encaps_ciphertext` (ephemeral secret in `secret`), whichever `encaps`
      is; `lengthSecret` is the declared length of that second output. The
      public key and both outputs must have their declared lengths. */
  method Encaps(d: Descriptor, encaps: EncapsFn, lengthSecret: nat,
                ct: ByteVec, secret: ByteVec, pk: seq<u8>, world: World) returns (status: Status)
    requires EncapsFits(encaps, d.lengthPublicKey, d.lengthCiphertext, lengthSecret)
    requires ct.Valid() && secret.Valid() && ct != secret && ct.data != secret.data
    requires ct.Capacity() == d.lengthCiphertext && secret.Capacity() == lengthSecret
    requires |pk| == d.lengthPublicKey
    modifies ct, ct.data, secret, secret.data
    ensures ct.Valid() && ct.len == old(ct.len) && secret.Valid() && secret.len == old(secret.len)
    ensures status == encaps(pk, world).status
    ensures status == OQS_SUCCESS ==>
      Filled(ct, encaps(pk, world).ct) && Filled(secret, encaps(pk, world).secret)
  {
    var out := encaps(pk, world);
    Write(ct, out.ct);
    Write(secret, out.secret);
    status := out.status;
  }

  /** Calls `encaps_shared_secret`. All three inputs and the output must have
      their declared lengths. */
  method EncapsSharedSecret(d: Descriptor, ss: ByteVec, ct: seq<u8>, es: seq<u8>, pk: seq<u8>)
    returns (status: Status)
    requires d.Valid() && d.encapsSharedSecret.Some?
    requires ss.Valid() && ss.Capacity() == d.lengthSharedSecret
    requires |ct| == d.lengthCiphertext && |es| == d.lengthEphemeralSecret && |pk| == d.lengthPublicKey
    modifies ss, ss.data
    ensures ss.Valid() && ss.len == old(ss.len)
    ensures status == d.encapsSharedSecret.value(ct, es, pk).status
    ensures status == OQS_SUCCESS ==> Filled(ss, d.encapsSharedSecret.value(ct, es, pk).ss)
  {
    var out := d.encapsSharedSecret.value(ct, es, pk);
    Write(ss, out.ss);
    status := out.status;
  }

  /** Calls `decaps`. The secret key, the ciphertext and the output must have
      their declared lengths. */
  method Decaps(d: Descriptor, ss: ByteVec, ct: seq<u8>, sk: seq<u8>) returns (status: Status)
    requires d.Valid() && d.decaps.Some?
    requires ss.Valid() && ss.Capacity() == d.lengthSharedSecret
    requires |ct| == d.lengthCiphertext && |sk| == d.lengthSecretKey
    modifies ss, ss.data
    ensures ss.Valid() && ss.len == old(ss.len)
    ensures status == d.decaps.value(ct, sk).status
    ensures status == OQS_SUCCESS ==> Filled(ss, d.decaps.value(ct, sk).ss)
  {
    var out := d.decaps.value(ct, sk);
    Write(ss, out.ss);
    status := out.status;
  }
}
