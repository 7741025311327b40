/** The cipher-suite seam: every primitive is an uninterpreted function of bytes,
    known only through the laws below. */
module Suites {
  import opened ByteStrings

  /** Failures of the sans-IO core. */
  datatype CoreError =
    | InvalidLength
    | Malformed
    | BadSignature
    | AeadFailure
    | UnsupportedSuite(code: U16)
    | StaleTimestamp
    | SourceIpMismatch
    | Replayed
    | KeyConfirmationMismatch
    | UnexpectedMessage

  const SUITE_CODE: U16 := 0x0001
  const TAG_LEN: nat := 16
  const NONCE_LEN: nat := 12

  // Sizes of section 8 of FIPS 203 (ML-KEM-768) and section 4 of FIPS 204 (ML-DSA-65).
  const KEM_EK_LEN: nat := 1184
  const KEM_CT_LEN: nat := 1088
  const SIG_VK_LEN: nat := 1952
  const SIG_LEN: nat := 3309

  /** Secrets are their stored seeds. `xof` is the keyed extendable output that
      the entropy pool draws nonces from, as a function of key and transcript. */
  datatype Suite = Suite(
    kemPublic: Bytes -> Bytes,
    kemEncapsulate: (Bytes, Bytes) -> Result<(Bytes, Bytes), CoreError>,
    kemDecapsulate: (Bytes, Bytes) -> Result<Bytes, CoreError>,
    sigPublic: Bytes -> Bytes,
    sigSign: (Bytes, Bytes) -> Bytes,
    sigVerify: (Bytes, Bytes, Bytes) -> bool,
    aeadSeal: (Bytes, Bytes, Bytes, Bytes) -> Bytes,
    aeadOpen: (Bytes, Bytes, Bytes, Bytes) -> Option<Bytes>,
    hkdf: (Bytes, Bytes, Bytes, nat) -> Bytes,
    hash256: Bytes -> Bytes32,
    hash512: Bytes -> Bytes,
    xof: (Bytes, Bytes) -> Bytes)
  {
    /** Decapsulation undoes encapsulation against the matching public key. */
    ghost predicate KemLaw() {
      forall sk: Bytes, r: Bytes ::
        var e := kemEncapsulate(kemPublic(sk), r);
        e.Ok? && |e.value.0| == KEM_CT_LEN && kemDecapsulate(sk, e.value.0) == Ok(e.value.1)
    }

    /** Verification accepts what was signed. */
    ghost predicate SigLaw() {
      forall sk: Bytes, m: Bytes ::
        |sigSign(sk, m)| == SIG_LEN && sigVerify(sigPublic(sk), m, sigSign(sk, m))
    }

    /** Opening undoes sealing, and sealing adds exactly the tag. */
    ghost predicate AeadLaw() {
      forall k: Bytes, n: Bytes, a: Bytes, p: Bytes ::
        |aeadSeal(k, n, a, p)| == |p| + TAG_LEN && aeadOpen(k, n, a, aeadSeal(k, n, a, p)) == Some(p)
    }

    ghost predicate SizeLaw() {
      && (forall sk: Bytes :: |kemPublic(sk)| == KEM_EK_LEN)
      && (forall sk: Bytes :: |sigPublic(sk)| == SIG_VK_LEN)
      && (forall m: Bytes :: |hash512(m)| == 64)
    }

    ghost predicate Laws() {
      KemLaw() && SigLaw() && AeadLaw() && SizeLaw()
    }
  }

  /** A toy suite, only to show that the laws are consistent. */
  function ToySuite(): Suite {
    Suite(
      kemPublic := sk => Zeros(KEM_EK_LEN),
      kemEncapsulate := (ek, r) => Ok((Zeros(KEM_CT_LEN), Zeros(32))),
      kemDecapsulate := (sk, ct) => if |ct| == KEM_CT_LEN then Ok(Zeros(32)) else Err(InvalidLength),
      sigPublic := sk => Zeros(SIG_VK_LEN),
      sigSign := (sk, m) => Zeros(SIG_LEN),
      sigVerify := (vk, m, sig) => |sig| == SIG_LEN,
      aeadSeal := (k, n, a, p) => p + Zeros(TAG_LEN),
      aeadOpen := (k, n, a, c) => if |c| < TAG_LEN then None else Some(c[..|c| - TAG_LEN]),
      hkdf := (ikm, salt, info, n) => Zeros(n),
      hash256 := m => Zeros(32),
      hash512 := m => Zeros(64),
      xof := (key, transcript) => Zeros(NONCE_LEN))
  }

  lemma LawsAreConsistent()
    ensures ToySuite().Laws()
  {
    var s := ToySuite();
    forall k: Bytes, n: Bytes, a: Bytes, p: Bytes
      ensures |s.aeadSeal(k, n, a, p)| == |p| + TAG_LEN
      ensures s.aeadOpen(k, n, a, s.aeadSeal(k, n, a, p)) == Some(p)
    {
      assert (p + Zeros(TAG_LEN))[..|p|] == p;
    }
  }
}
