/** The signature scheme behind `KeyPair::sign` and `Signature::verify`,
    injected as a value. Its cryptographic guarantees are stated as
    predicates that the lemmas about signing take as hypotheses. */
module Signatures {
  import opened Types

  /** A key pair, identified by its 32-byte seed. */
  datatype KeyPair = KeyPair(seed: Hash32)

  /** A MultiSignature, kept as its byte form. */
  type Signature = Bytes

  datatype SignatureScheme = SignatureScheme(
    public: KeyPair -> AccountId,
    sign: (KeyPair, Bytes) -> Signature,
    verify: (Signature, Bytes, AccountId) -> bool)

  /** Correctness: a signature made with a key verifies, over the same
      message, against that key's account. */
  ghost predicate Correct(s: SignatureScheme) {
    forall k: KeyPair, m: Bytes :: s.verify(s.sign(k, m), m, s.public(k))
  }

  /** Idealised unforgeability: every signature that verifies for an account
      was made with that account's key over exactly that message, a
      signature determines its key and message, and distinct keys have
      distinct accounts. */
  ghost predicate Unforgeable(s: SignatureScheme) {
    && (forall sig: Signature, m: Bytes, a: AccountId :: s.verify(sig, m, a) ==>
          exists k: KeyPair :: s.public(k) == a && s.sign(k, m) == sig)
    && (forall k1: KeyPair, m1: Bytes, k2: KeyPair, m2: Bytes ::
          s.sign(k1, m1) == s.sign(k2, m2) ==> k1 == k2 && m1 == m2)
    && (forall k1: KeyPair, k2: KeyPair :: s.public(k1) == s.public(k2) ==> k1 == k2)
  }

  /** Under unforgeability a signature made with key k over m verifies for
      message m' and account a only when m' is m and a is k's account. */
  lemma VerifiesOnlyOwnMessage(s: SignatureScheme, k: KeyPair, m: Bytes, m': Bytes, a: AccountId)
    requires Unforgeable(s)
    requires s.verify(s.sign(k, m), m', a)
    ensures m' == m && a == s.public(k)
  {
    var k' :| s.public(k') == a && s.sign(k', m') == s.sign(k, m);
  }

  /** Under unforgeability, for a fixed account and message, only the
      signature that account's key makes verifies. */
  lemma OnlyGenuineSignatureVerifies(s: SignatureScheme, k: KeyPair, m: Bytes, sig: Signature)
    requires Unforgeable(s)
    requires s.verify(sig, m, s.public(k))
    ensures sig == s.sign(k, m)
  {
    var k' :| s.public(k') == s.public(k) && s.sign(k', m) == sig;
  }
}
