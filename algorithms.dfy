/** The algorithm catalog of oqs/src/kem.rs: the closed enumeration of KEM
    variants declared by the `implement_kems!` invocation, and the mapping from
    each tag to the identifier the native library is asked for. */
module Algorithms {
  import opened Oqs

  /** Every KEM variant the bindings know about (whether or not the linked
      native build enables it), in declaration order. */
  datatype Algorithm =
    | BikeL1                  // OQS_KEM_alg_bike_l1
    | BikeL3                  // OQS_KEM_alg_bike_l3
    | ClassicMcEliece348864   // OQS_KEM_alg_classic_mceliece_348864
    | ClassicMcEliece348864f  // OQS_KEM_alg_classic_mceliece_348864f
    | ClassicMcEliece460896   // OQS_KEM_alg_classic_mceliece_460896
    | ClassicMcEliece460896f  // OQS_KEM_alg_classic_mceliece_460896f
    | ClassicMcEliece6688128  // OQS_KEM_alg_classic_mceliece_6688128
    | ClassicMcEliece6688128f // OQS_KEM_alg_classic_mceliece_6688128f
    | ClassicMcEliece6960119  // OQS_KEM_alg_classic_mceliece_6960119
    | ClassicMcEliece6960119f // OQS_KEM_alg_classic_mceliece_6960119f
    | ClassicMcEliece8192128  // OQS_KEM_alg_classic_mceliece_8192128
    | ClassicMcEliece8192128f // OQS_KEM_alg_classic_mceliece_8192128f
    | Hqc128                  // OQS_KEM_alg_hqc_128
    | Hqc192                  // OQS_KEM_alg_hqc_192
    | Hqc256                  // OQS_KEM_alg_hqc_256
    | Kyber512                // OQS_KEM_alg_kyber_512
    | Kyber768                // OQS_KEM_alg_kyber_768
    | Kyber1024               // OQS_KEM_alg_kyber_1024
    | Kyber512_90s            // OQS_KEM_alg_kyber_512_90s
    | Kyber768_90s            // OQS_KEM_alg_kyber_768_90s
    | Kyber1024_90s           // OQS_KEM_alg_kyber_1024_90s
    | NtruHps2048509          // OQS_KEM_alg_ntru_hps2048509
    | NtruHps2048677          // OQS_KEM_alg_ntru_hps2048677
    | NtruHps4096821          // OQS_KEM_alg_ntru_hps4096821
    | NtruHps40961229         // OQS_KEM_alg_ntru_hps40961229
    | NtruHrss701             // OQS_KEM_alg_ntru_hrss701
    | NtruHrss1373            // OQS_KEM_alg_ntru_hrss1373
    | NtruPrimeNtrulpr653     // OQS_KEM_alg_ntruprime_ntrulpr653
    | NtruPrimeNtrulpr761     // OQS_KEM_alg_ntruprime_ntrulpr761
    | NtruPrimeNtrulpr857     // OQS_KEM_alg_ntruprime_ntrulpr857
    | NtruPrimeNtrulpr1277    // OQS_KEM_alg_ntruprime_ntrulpr1277
    | NtruPrimeSntrup653      // OQS_KEM_alg_ntruprime_sntrup653
    | NtruPrimeSntrup761      // OQS_KEM_alg_ntruprime_sntrup761
    | NtruPrimeSntrup857      // OQS_KEM_alg_ntruprime_sntrup857
    | NtruPrimeSntrup1277     // OQS_KEM_alg_ntruprime_sntrup1277
    | Lightsaber              // OQS_KEM_alg_saber_lightsaber
    | Saber                   // OQS_KEM_alg_saber_saber
    | Firesaber               // OQS_KEM_alg_saber_firesaber
    | FrodoKem640Aes          // OQS_KEM_alg_frodokem_640_aes
    | FrodoKem640Shake        // OQS_KEM_alg_frodokem_640_shake
    | FrodoKem976Aes          // OQS_KEM_alg_frodokem_976_aes
    | FrodoKem976Shake        // OQS_KEM_alg_frodokem_976_shake
    | FrodoKem1344Aes         // OQS_KEM_alg_frodokem_1344_aes
    | FrodoKem1344Shake       // OQS_KEM_alg_frodokem_1344_shake
    | SidhP434                // OQS_KEM_alg_sidh_p434
    | SidhP503                // OQS_KEM_alg_sidh_p503
    | SidhP610                // OQS_KEM_alg_sidh_p610
    | SidhP751                // OQS_KEM_alg_sidh_p751
    | SidhP434Compressed      // OQS_KEM_alg_sidh_p434_compressed
    | SidhP503Compressed      // OQS_KEM_alg_sidh_p503_compressed
    | SidhP610Compressed      // OQS_KEM_alg_sidh_p610_compressed
    | SidhP751Compressed      // OQS_KEM_alg_sidh_p751_compressed
    | SikeP434                // OQS_KEM_alg_sike_p434
    | SikeP503                // OQS_KEM_alg_sike_p503
    | SikeP610                // OQS_KEM_alg_sike_p610
    | SikeP751                // OQS_KEM_alg_sike_p751
    | SikeP434Compressed      // OQS_KEM_alg_sike_p434_compressed
    | SikeP503Compressed      // OQS_KEM_alg_sike_p503_compressed
    | SikeP610Compressed      // OQS_KEM_alg_sike_p610_compressed
    | SikeP751Compressed      // OQS_KEM_alg_sike_p751_compressed
    | SikeP434Compressed1CCA  // OQS_KEM_alg_sike_p434_1cca_compressed
    | SikeP503Compressed1CCA  // OQS_KEM_alg_sike_p503_1cca_compressed
    | SikeP610Compressed1CCA  // OQS_KEM_alg_sike_p610_1cca_compressed
    | SikeP751Compressed1CCA  // OQS_KEM_alg_sike_p751_1cca_compressed
    | CsidhP512               // OQS_KEM_alg_csidh_p512

  /** Identifiers of the native library. Their text is held by constants of the
      native bindings (`OQS_KEM_alg_*`), which are not part of this model; an
      identifier is modelled by the position of its tag in the catalog. */
  type AlgorithmId = nat

  /** `algorithm_to_id`: the native identifier of a tag. */
  function AlgorithmToId(algorithm: Algorithm): (id: AlgorithmId)
    ensures id < CatalogSize
  {
    match algorithm
    case BikeL1 => 0
    case BikeL3 => 1
    case ClassicMcEliece348864 => 2
    case ClassicMcEliece348864f => 3
    case ClassicMcEliece460896 => 4
    case ClassicMcEliece460896f => 5
    case ClassicMcEliece6688128 => 6
    case ClassicMcEliece6688128f => 7
    case ClassicMcEliece6960119 => 8
    case ClassicMcEliece6960119f => 9
    case ClassicMcEliece8192128 => 10
    case ClassicMcEliece8192128f => 11
    case Hqc128 => 12
    case Hqc192 => 13
    case Hqc256 => 14
    case Kyber512 => 15
    case Kyber768 => 16
    case Kyber1024 => 17
    case Kyber512_90s => 18
    case Kyber768_90s => 19
    case Kyber1024_90s => 20
    case NtruHps2048509 => 21
    case NtruHps2048677 => 22
    case NtruHps4096821 => 23
    case NtruHps40961229 => 24
    case NtruHrss701 => 25
    case NtruHrss1373 => 26
    case NtruPrimeNtrulpr653 => 27
    case NtruPrimeNtrulpr761 => 28
    case NtruPrimeNtrulpr857 => 29
    case NtruPrimeNtrulpr1277 => 30
    case NtruPrimeSntrup653 => 31
    case NtruPrimeSntrup761 => 32
    case NtruPrimeSntrup857 => 33
    case NtruPrimeSntrup1277 => 34
    case Lightsaber => 35
    case Saber => 36
    case Firesaber => 37
    case FrodoKem640Aes => 38
    case FrodoKem640Shake => 39
    case FrodoKem976Aes => 40
    case FrodoKem976Shake => 41
    case FrodoKem1344Aes => 42
    case FrodoKem1344Shake => 43
    case SidhP434 => 44
    case SidhP503 => 45
    case SidhP610 => 46
    case SidhP751 => 47
    case SidhP434Compressed => 48
    case SidhP503Compressed => 49
    case SidhP610Compressed => 50
    case SidhP751Compressed => 51
    case SikeP434 => 52
    case SikeP503 => 53
    case SikeP610 => 54
    case SikeP751 => 55
    case SikeP434Compressed => 56
    case SikeP503Compressed => 57
    case SikeP610Compressed => 58
    case SikeP751Compressed => 59
    case SikeP434Compressed1CCA => 60
    case SikeP503Compressed1CCA => 61
    case SikeP610Compressed1CCA => 62
    case SikeP751Compressed1CCA => 63
    case CsidhP512 => 64
  }

  /** The number of tags in the catalog. */
  const CatalogSize: nat := 65

  // The inverse of `AlgorithmToId` is split by family group: the verifier
  // handles a few short tables far more cheaply than one of 65 entries.

  /** The tag at position `i` within the code-based families (BIKE, Classic McEliece, HQC);
      its identifiers start at 0. */
  function CodeBasedTag(i: nat): Algorithm
    requires i < 15
  {
    match i
    case 0 => BikeL1
    case 1 => BikeL3
    case 2 => ClassicMcEliece348864
    case 3 => ClassicMcEliece348864f
    case 4 => ClassicMcEliece460896
    case 5 => ClassicMcEliece460896f
    case 6 => ClassicMcEliece6688128
    case 7 => ClassicMcEliece6688128f
    case 8 => ClassicMcEliece6960119
    case 9 => ClassicMcEliece6960119f
    case 10 => ClassicMcEliece8192128
    case 11 => ClassicMcEliece8192128f
    case 12 => Hqc128
    case 13 => Hqc192
    case _ => Hqc256
  }

  /** The tag at position `i` within the lattice families (Kyber, NTRU, NTRU Prime, Saber, FrodoKEM);
      its identifiers start at 15. */
  function LatticeTag(i: nat): Algorithm
    requires i < 29
  {
    match i
    case 0 => Kyber512
    case 1 => Kyber768
    case 2 => Kyber1024
    case 3 => Kyber512_90s
    case 4 => Kyber768_90s
    case 5 => Kyber1024_90s
    case 6 => NtruHps2048509
    case 7 => NtruHps2048677
    case 8 => NtruHps4096821
    case 9 => NtruHps40961229
    case 10 => NtruHrss701
    case 11 => NtruHrss1373
    case 12 => NtruPrimeNtrulpr653
    case 13 => NtruPrimeNtrulpr761
    case 14 => NtruPrimeNtrulpr857
    case 15 => NtruPrimeNtrulpr1277
    case 16 => NtruPrimeSntrup653
    case 17 => NtruPrimeSntrup761
    case 18 => NtruPrimeSntrup857
    case 19 => NtruPrimeSntrup1277
    case 20 => Lightsaber
    case 21 => Saber
    case 22 => Firesaber
    case 23 => FrodoKem640Aes
    case 24 => FrodoKem640Shake
    case 25 => FrodoKem976Aes
    case 26 => FrodoKem976Shake
    case 27 => FrodoKem1344Aes
    case _ => FrodoKem1344Shake
  }

  /** The tag at position `i` within the SIDH family;
      its identifiers start at 44. */
  function SidhTag(i: nat): Algorithm
    requires i < 8
  {
    match i
    case 0 => SidhP434
    case 1 => SidhP503
    case 2 => SidhP610
    case 3 => SidhP751
    case 4 => SidhP434Compressed
    case 5 => SidhP503Compressed
    case 6 => SidhP610Compressed
    case _ => SidhP751Compressed
  }

  /** The tag at position `i` within the SIKE family and CSIDH;
      its identifiers start at 52. */
  function SikeTag(i: nat): Algorithm
    requires i < 13
  {
    match i
    case 0 => SikeP434
    case 1 => SikeP503
    case 2 => SikeP610
    case 3 => SikeP751
    case 4 => SikeP434Compressed
    case 5 => SikeP503Compressed
    case 6 => SikeP610Compressed
    case 7 => SikeP751Compressed
    case 8 => SikeP434Compressed1CCA
    case 9 => SikeP503Compressed1CCA
    case 10 => SikeP610Compressed1CCA
    case 11 => SikeP751Compressed1CCA
    case _ => CsidhP512
  }

  /** The tag whose identifier is `id`. */
  function TagAt(id: AlgorithmId): Algorithm
    requires id < CatalogSize
  {
    if id < 15 then CodeBasedTag(id)
    else if id < 44 then LatticeTag(id - 15)
    else if id < 52 then SidhTag(id - 44)
    else SikeTag(id - 52)
  }

  // Each group's table lists its tags at their identifiers, and holds every
  // tag whose identifier falls in the group's range.

  lemma CodeBasedTagId(i: nat)
    requires i < 15
    ensures AlgorithmToId(CodeBasedTag(i)) == i
  {
  }

  lemma LatticeTagId(i: nat)
    requires i < 29
    ensures AlgorithmToId(LatticeTag(i)) == 15 + i
  {
  }

  lemma SidhTagId(i: nat)
    requires i < 8
    ensures AlgorithmToId(SidhTag(i)) == 44 + i
  {
  }

  lemma SikeTagId(i: nat)
    requires i < 13
    ensures AlgorithmToId(SikeTag(i)) == 52 + i
  {
  }

  lemma CodeBasedTagRoundTrip(algorithm: Algorithm)
    ensures AlgorithmToId(algorithm) < 15 ==> CodeBasedTag(AlgorithmToId(algorithm)) == algorithm
  {
  }

  lemma LatticeTagRoundTrip(algorithm: Algorithm)
    ensures 15 <= AlgorithmToId(algorithm) < 44 ==> LatticeTag(AlgorithmToId(algorithm) - 15) == algorithm
  {
  }

  lemma SidhTagRoundTrip(algorithm: Algorithm)
    ensures 44 <= AlgorithmToId(algorithm) < 52 ==> SidhTag(AlgorithmToId(algorithm) - 44) == algorithm
  {
  }

  lemma SikeTagRoundTrip(algorithm: Algorithm)
    ensures 52 <= AlgorithmToId(algorithm) < 65 ==> SikeTag(AlgorithmToId(algorithm) - 52) == algorithm
  {
  }

  /** `TagAt` inverts `AlgorithmToId`: looking a tag's identifier up again
      gives back the same tag. */
  lemma IdRoundTrip(algorithm: Algorithm)
    ensures TagAt(AlgorithmToId(algorithm)) == algorithm
  {
    CodeBasedTagRoundTrip(algorithm);
    LatticeTagRoundTrip(algorithm);
    SidhTagRoundTrip(algorithm);
    SikeTagRoundTrip(algorithm);
  }

  /** Distinct tags have distinct identifiers, so a handle acquired for a
      tag's identifier belongs to that tag and no other. */
  lemma AlgorithmToIdInjective(a: Algorithm, b: Algorithm)
    ensures AlgorithmToId(a) == AlgorithmToId(b) ==> a == b
  {
    IdRoundTrip(a);
    IdRoundTrip(b);
  }

  /** Every identifier below `CatalogSize` belongs to a tag: with the bound
      on `AlgorithmToId` and its injectivity, the table of `algorithm_to_id`
      is a one-to-one correspondence between the tags and the identifiers
      `0 .. CatalogSize - 1`. */
  lemma AlgorithmToIdOnto(id: AlgorithmId)
    requires id < CatalogSize
    ensures exists algorithm :: AlgorithmToId(algorithm) == id
  {
    if id < 15 {
      CodeBasedTagId(id);
    } else if id < 44 {
      LatticeTagId(id - 15);
    } else if id < 52 {
      SidhTagId(id - 44);
    } else {
      SikeTagId(id - 52);
    }
    assert AlgorithmToId(TagAt(id)) == id;
  }
}
