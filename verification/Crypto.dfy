/** The primitives the repository takes from libsodium, as parameters of the
    model.  Everything is proved for any suite that satisfies Correct. */
module Crypto {
  import opened Octets

  const PUBLIC_KEY_BYTES: nat := 32
  const SIGNATURE_BYTES: nat := 64
  const SESSION_KEY_BYTES: nat := 32

  datatype Suite = Suite(
    /** agree_shared_key(my secret, their public). */
    agree: (Bytes, Bytes) -> Option<Bytes>,
    /** seal(key, plaintext, aad) with its random nonce made explicit:
        (key, nonce, plaintext, aad). */
    seal: (Bytes, Bytes, Bytes, Bytes) -> Bytes,
    /** open(key, sealed, aad). */
    open: (Bytes, Bytes, Bytes) -> Option<Bytes>,
    /** verify_detached(signature, message, public key). */
    verify: (Bytes, Bytes, Bytes) -> bool,
    /** derive_key(passphrase, salt); empty on failure. */
    derive: (Bytes, Bytes) -> Bytes)

  /** What the primitives promise: a sealed text is not empty and opens under the
      same key and associated data, nothing opens to more than was sealed, keys have
      their fixed length, and a signature or key of the wrong length never verifies. */
  ghost predicate Correct(c: Suite)
  {
    && (forall k: Bytes, n: Bytes, t: Bytes, a: Bytes ::
          |k| == SESSION_KEY_BYTES ==> c.seal(k, n, t, a) != [] && c.open(k, c.seal(k, n, t, a), a) == Some(t))
    && (forall k: Bytes, z: Bytes, a: Bytes :: c.open(k, z, a).Some? ==> |c.open(k, z, a).value| <= |z|)
    && (forall s: Bytes, p: Bytes ::
          c.agree(s, p).Some? ==> |c.agree(s, p).value| == SESSION_KEY_BYTES && |p| == PUBLIC_KEY_BYTES)
    && (forall p: Bytes, s: Bytes :: c.derive(p, s) != [] ==> |c.derive(p, s)| == SESSION_KEY_BYTES)
    && (forall g: Bytes, m: Bytes, p: Bytes ::
          c.verify(g, m, p) ==> |g| == SIGNATURE_BYTES && |p| == PUBLIC_KEY_BYTES)
  }
}
