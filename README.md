# oqs-rs KEM bindings: a Dafny model of `oqs/src/kem.rs`

This project models the safe Rust wrapper of the key encapsulation (KEM) part of
liboqs, in the KEMTLS-SIKE fork of oqs-rs. The cryptography lives in the native
library. What the wrapper contributes, and what is modelled and proved here, is
the discipline around it:

- the algorithm catalog and its mapping to native identifiers;
- acquiring and releasing a native descriptor (`Kem::new`, `Drop`);
- length-checked views of caller bytes (`*_from_bytes`);
- the operation pipeline that every operation follows:
  1. check each caller buffer against its declared length (`InvalidLength`);
  2. reserve each output at its declared capacity;
  3. call the native entry point;
  4. turn a non-success status into `OperationFailed`;
  5. only then commit each output to its declared length (`set_len`).

Modules:

- `Oqs` (`oqs.dfy`): `u8`, the error taxonomy, the crate's `Result` (usable with
  `:-` like Rust's `?`) and `status_to_result`.
- `Buffers` (`buffers.dfy`):
  - the owned and borrowed buffer kinds (public key, secret key, ciphertext,
    shared secret, ephemeral secret);
  - `ByteVec`, a class modelling `Vec<u8>`. It has a fixed-capacity array, a
    logical length and a ghost count of initialised bytes. `SetLen` may only
    expose initialised bytes, which is the safety condition of `set_len`.
- `Algorithms` (`algorithms.dfy`): the 65-tag `Algorithm` enumeration in
  declaration order, and `algorithm_to_id`.
- `Native` (`native.dfy`): the native library as an oracle.
  - A `Descriptor` holds the declared lengths, the metadata and the entry
    points. Each entry point is a function from its inputs (and a `World` for
    randomness) to a status and the bytes it writes.
  - `Descriptor.Valid` is the native size contract. `Descriptor.Correct` is the
    assumed KEM correctness.
  - `Library.KemNew` models `OQS_KEM_new`.
  - The native calls are methods that write into `ByteVec`s of exactly the
    declared capacities.
- `Kem` (`kem.dfy`):
  - one specification function per operation (`KeypairResult`,
    `EncapsulateResult`, …), stating what the operation returns;
  - the class `Kem`, whose methods carry out the pipeline on `ByteVec`s and are
    proved to return exactly what those functions say;
  - the round-trip lemmas;
  - the encaps/decaps test as a method.

A handle's descriptor is a `const`, so the declared lengths, the NIST level
and the IND-CCA flag cannot change over a handle's life; no operation can alter
them. The ghost field `released` is set by `Drop`. Every operation, accessor and
`*_from_bytes` function of `Kem` requires a live handle, so release happens
at most once and nothing that reads the descriptor runs after it.

The ghost out-parameter `invoked` of the encapsulation and decapsulation methods
records whether control reached the native call; it is set by the method itself.
The guarantee that no native entry point ever sees a wrongly sized buffer is the
`requires` of `Native.Encaps`, `Native.EncapsSharedSecret` and `Native.Decaps`,
which every call site has to establish.

## Model

| member | source | states |
|---|---|---|
| Oqs.StatusToResult | oqs/src/kem.rs:403 | A native status gives success exactly when it is the success code; any other status gives `OperationFailed`. |
| Algorithms.AlgorithmToId | oqs/src/kem.rs:44-51 | Every tag maps to an identifier below the catalog size (65 tags, in declaration order). |
| Algorithms.IdRoundTrip | oqs/src/kem.rs:44-51 | Looking up the tag at a tag's identifier gives back that tag. |
| Algorithms.AlgorithmToIdInjective | oqs/src/kem.rs:44-51 | Distinct tags have distinct identifiers. |
| Algorithms.AlgorithmToIdOnto | oqs/src/kem.rs:44-51 | Every identifier below the catalog size is the identifier of some tag. With injectivity, the mapping is a one-to-one correspondence between the 65 tags and the identifiers 0-64. |
| Native.Library.KemNew | oqs/src/kem.rs:254 | Acquisition yields a descriptor exactly when the build provides the identifier. |
| Native.Keypair | oqs/src/kem.rs:402 | Needs output buffers of exactly the declared capacities. Returns the native status; on success both buffers are fully initialised with the generated keys. The logical lengths are unchanged. |
| Native.Encaps | oqs/src/kem.rs:452-458 | Needs a public key of the declared length and outputs of exactly the declared capacities. Returns the native status; on success both outputs are fully initialised. The logical lengths are unchanged. |
| Native.EncapsSharedSecret | oqs/src/kem.rs:570-577 | Needs all three inputs at their declared lengths and an output of the declared capacity. On success the output is fully initialised. |
| Native.Decaps | oqs/src/kem.rs:605 | Needs the key and ciphertext at their declared lengths and an output of the declared capacity. On success the output is fully initialised. |
| Buffers.ByteVec.Bytes | oqs/src/kem.rs:21-25 | The visible bytes of a buffer are exactly its first `len` bytes. |
| Buffers.ByteVec.WithCapacity | oqs/src/kem.rs:396-401 | A fresh vector has the requested capacity, length zero and no initialised bytes. |
| Buffers.ByteVec.SetLen | oqs/src/kem.rs:407-408 | Exposes `n` bytes, and is allowed only when the first `n` bytes are initialised. |
| Kem.KeypairResult | oqs/src/kem.rs:393-432 | Success exactly on a success status, and then keys of the declared public- and secret-key lengths; otherwise `OperationFailed` and no keys. |
| Kem.EncapsulateResult | oqs/src/kem.rs:435-502 | `InvalidLength` exactly when the public key has the wrong length. With the right length: success exactly on a success status, and then a ciphertext and a shared secret of the declared lengths; otherwise `OperationFailed`. |
| Kem.EncapsulateCiphertextResult | oqs/src/kem.rs:506-538 | As `EncapsulateResult`, but the second output is an ephemeral secret of the declared ephemeral-secret length. |
| Kem.EncapsulateSharedSecretResult | oqs/src/kem.rs:540-585 | `InvalidLength` exactly when the public key, the ciphertext or the ephemeral secret has the wrong length. Otherwise success exactly on a success status, with a shared secret of the declared length; a failure status gives `OperationFailed`. |
| Kem.DecapsulateResult | oqs/src/kem.rs:588-611 | `InvalidLength` exactly when the secret key or the ciphertext has the wrong length. Otherwise success exactly on a success status, with a shared secret of the declared length; a failure status gives `OperationFailed`. |
| Kem.Kem.FromDescriptor | oqs/src/kem.rs:257 | A new handle is live and holds the algorithm and the descriptor it was built from. |
| Kem.Kem.New | oqs/src/kem.rs:253-264 | `AlgorithmDisabled` exactly when the build lacks the algorithm's identifier. Otherwise a fresh live handle whose `Algorithm()` is the algorithm passed in and whose descriptor is the one acquired for its identifier. |
| Kem.Kem.Drop | oqs/src/kem.rs:238-242 | Requires a live handle and releases it. Every member of `Kem` requires a live handle, so release happens at most once and nothing that reads the descriptor follows it. |
| Kem.Kem.Algorithm | oqs/src/kem.rs:262-264 | The tag the handle was created for. |
| Kem.Kem.ClaimedNistLevel | oqs/src/kem.rs:276-279 | The NIST level the descriptor claims; requires a live handle. |
| Kem.Kem.IsIndCca | oqs/src/kem.rs:282-285 | The descriptor's IND-CCA claim; requires a live handle. |
| Kem.Kem.LengthPublicKey | oqs/src/kem.rs:288-291 | The descriptor's declared public-key length; requires a live handle. |
| Kem.Kem.LengthSecretKey | oqs/src/kem.rs:294-297 | The declared secret-key length; requires a live handle. |
| Kem.Kem.LengthCiphertext | oqs/src/kem.rs:300-303 | The declared ciphertext length; requires a live handle. |
| Kem.Kem.LengthSharedSecret | oqs/src/kem.rs:306-309 | The declared shared-secret length; requires a live handle. |
| Kem.Kem.LengthEphemeralSecret | oqs/src/kem.rs:312-315 | The declared ephemeral-secret length; requires a live handle. |
| Kem.Kem.SecretKeyFromBytes | oqs/src/kem.rs:320-326 | `Some` exactly when the slice has the declared secret-key length, and then it wraps the slice unchanged. |
| Kem.Kem.PublicKeyFromBytes | oqs/src/kem.rs:331-337 | The same for the public-key length. |
| Kem.Kem.CiphertextFromBytes | oqs/src/kem.rs:342-348 | The same for the ciphertext length. |
| Kem.Kem.SharedSecretFromBytes | oqs/src/kem.rs:353-359 | The same for the shared-secret length. |
| Kem.Kem.EphemeralSecretFromBytes | oqs/src/kem.rs:364-370 | The same for the ephemeral-secret length. |
| Kem.Kem.Init | oqs/src/kem.rs:373-380 | Success exactly when the setup hook returns the success status; otherwise `OperationFailed`. |
| Kem.Kem.Deinit | oqs/src/kem.rs:383-390 | Success exactly when the teardown hook returns the success status; otherwise `OperationFailed`. |
| Kem.Kem.KeypairWith | oqs/src/kem.rs:393-432 | The allocate / native call / status check / `set_len` pipeline returns exactly `KeypairResult`. |
| Kem.Kem.Keypair | oqs/src/kem.rs:393-411 | Returns `KeypairResult` for the plain entry point. On success the keys have the handle's declared lengths; on failure the error is `OperationFailed`. |
| Kem.Kem.KeypairAsync | oqs/src/kem.rs:414-432 | The same through the async entry point. |
| Kem.Kem.EncapsulateWith | oqs/src/kem.rs:435-502 | The pipeline returns exactly `EncapsulateResult`. The native entry point is invoked exactly when the public key has the declared length. |
| Kem.Kem.Encapsulate | oqs/src/kem.rs:435-467 | Returns `EncapsulateResult` for the plain entry point. A wrong-length public key gives `InvalidLength` without a native call. On success the ciphertext and the shared secret have the declared lengths. |
| Kem.Kem.AsyncEncapsulate | oqs/src/kem.rs:470-502 | The same through the async entry point. |
| Kem.Kem.EncapsulateCiphertext | oqs/src/kem.rs:506-538 | Returns `EncapsulateCiphertextResult`. A wrong-length public key gives `InvalidLength` without a native call. On success the ciphertext and the ephemeral secret have the declared lengths. |
| Kem.Kem.EncapsulateSharedSecret | oqs/src/kem.rs:540-585 | Returns `EncapsulateSharedSecretResult`. The native call happens exactly when all three lengths are right; otherwise the result is `InvalidLength`. On success the shared secret has the declared length. |
| Kem.Kem.Decapsulate | oqs/src/kem.rs:588-611 | Returns `DecapsulateResult`. The native call happens exactly when both lengths are right; otherwise the result is `InvalidLength`. On success the shared secret has the declared length. |
| Kem.EncapsDecapsRoundTrip | oqs/src/kem.rs:220-228 | Assumes the native KEM contract. Keys from either key generator are accepted by either encapsulator, which can then fail only through the native status. Decapsulating its ciphertext with the secret key returns its shared secret. |
| Kem.SplitPathAgrees | oqs/src/kem.rs:506-585 | Assumes the native KEM contract. The shared secret finished from `encapsulate_ciphertext`'s outputs and the public key always succeeds, and equals what `decapsulate` recovers with the secret key. |
| Kem.EncapsDecapsTest | oqs/src/kem.rs:61-70 | The per-algorithm test: new, keypair, encapsulate, decapsulate, then the two shared secrets are checked equal. Assuming the native KEM contract, it never fails with `InvalidLength`. It fails with `AlgorithmDisabled` exactly when the build lacks the algorithm. It succeeds exactly when key generation and encapsulation report success. |

## Left out

- The cryptographic algorithms themselves (BIKE, Classic McEliece, HQC, Kyber, NTRU, NTRU Prime, Saber, FrodoKEM, SIDH, SIKE, CSIDH) belong to the native library. Each entry point is an opaque function constrained only by the size contract `Descriptor.Valid`.
- KEM correctness (decapsulation recovers the encapsulated secret; the split path agrees with decapsulation) is not something the bindings can establish. It is the predicate `Descriptor.Correct`, assumed as a precondition by the round-trip lemmas and the test.
- Raw pointers, `unsafe`, `NonNull`, `as_mut_ptr` and the `as_ref` of the descriptor are left out. Native writes are modelled by `Native.Write`, which fills the whole capacity of a `ByteVec`.
- Missing entry points (`unwrap()` on a null function pointer) are not modelled as panics. Their presence is a precondition of each operation.
- Uninitialised memory is modelled as a zero-initialised array plus a ghost count of initialised bytes.
- `usize` lengths are modelled as unbounded naturals.
- The text of the native identifiers (`OQS_KEM_alg_*`) comes from binding constants that are not part of this model. An identifier is modelled by its tag's position in the catalog.
- `is_enabled`, `to_id`, `name`, `version` and the `Display` impl are left out. They read native strings or state that are not part of this model.
- The `TryFrom<Algorithm>` impl (oqs/src/kem.rs:244-249) is left out, because it only calls `Kem::new`.
- The other catalog tests (`test_enabled`, `test_name`, `test_get_algorithm_back`, `test_version`) are left out. Only `test_get_algorithm_back` has logic of its own here, and `Kem.Kem.New` states it.
- The `Send`/`Sync` markers are left out, because they are a concurrency claim.
- The serde derives and the `cfg` feature wiring are left out.
- The `crate::init()` call of the test is left out.
- The `newtype_buffer!` macro and `status_to_result` are defined in crate files that are not part of this model. The buffers are modelled from their uses. `status_to_result` is modelled as "0 is success, every other status is `OperationFailed`".
- The demo program test/src/main.rs (timing and printing) is not part of this model.
- Kem.Kem.Drop: the release that Rust performs automatically when a handle goes out of scope is not enforced; the model proves only that release happens at most once and that nothing reads the descriptor afterwards. `Kem.EncapsDecapsTest` releases its handle explicitly on every path after `new`.
- Kem.EncapsDecapsTest: the Rust test drops the handle implicitly at scope exit. The model calls `Drop` explicitly, on the success path and on the failure paths after `new`.
