/**
 * The signing capability the game relies on, kept abstract: keccak-256 and
 * ECDSA are not modelled. A concrete deterministic "fake signer" stands in for
 * them: a digest is its own preimage (so hashing never collides) and a
 * signature records who signed which digest. The one law the game uses is that
 * recovering the signer from a digest and a signature over it yields the
 * signer's address; signing is deterministic, as RFC 6979 signing is.
 */
module Crypto {

  /** A Solidity `uint8`. */
  newtype uint8 = x: int | 0 <= x < 256

  /** A signer's private key. */
  datatype Key = Key(secret: nat)

  /** An account address; `ZeroAddress` is the all-zero address. */
  datatype Address = Address(id: nat)

  const ZeroAddress: Address := Address(0)

  /** The address derived from a private key; never the zero address. */
  function AddressOf(k: Key): (a: Address)
    ensures a != ZeroAddress
  {
    Address(k.secret + 1)
  }

  /** Distinct keys have distinct addresses. */
  lemma AddressOfInjective(k1: Key, k2: Key)
    ensures AddressOf(k1) == AddressOf(k2) <==> k1 == k2
  {
  }

  /** A keccak-256 digest, modelled as collision-free. */
  datatype Digest = Keccak256(preimage: seq<uint8>)

  function Keccak(bytes: seq<uint8>): Digest
  {
    Keccak256(bytes)
  }

  /**
   * A 65-byte signature, kept abstract as the signer and digest it binds.
   * `variant` stands for the other signatures that recover alike (ECDSA's
   * `(r, n - s)` twin, say): recovery ignores it, so a signer has many
   * signatures over one digest and the model does not rely on there being one.
   */
  datatype Signature = Signature(signer: Address, digest: Digest, variant: nat)

  /** Signing a message (the prefixed-message signing of an Ethereum wallet). */
  function Sign(k: Key, d: Digest): (s: Signature)
    ensures Recover(d, s) == AddressOf(k)
  {
    Signature(AddressOf(k), d, 0)
  }

  /**
   * Recovering the signer of a digest; a signature over any other digest
   * recovers to the zero address, the failure value of `ecrecover`.
   */
  function Recover(d: Digest, s: Signature): Address
  {
    if s.digest == d then s.signer else ZeroAddress
  }

  /** A signature other than the one `Sign` makes also recovers to the signer. */
  lemma SignatureNotUnique(k: Key, d: Digest)
    ensures exists s :: s != Sign(k, d) && Recover(d, s) == AddressOf(k)
  {
    var twin := Signature(AddressOf(k), d, 1);
    assert twin != Sign(k, d) && Recover(d, twin) == AddressOf(k);
  }

  /** A signature over one digest does not recover to its signer over another digest. */
  lemma RecoverBindsDigest(k: Key, d1: Digest, d2: Digest)
    requires Recover(d2, Sign(k, d1)) == AddressOf(k)
    ensures d1 == d2
  {
  }
}
