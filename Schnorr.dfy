/** The BIP 340 Schnorr signature as an opaque collaborator: only its fixed
    64-byte serialization is modelled, not signing or verification. */
module Schnorr {

  import opened ByteStrings

  /** A 32-byte big-endian encoding of a field element or scalar. */
  type Bytes32 = s: Bytes | |s| == 32 witness seq(32, _ => 0)

  /** A signature (R, s): the x coordinate of R and the scalar s, each held
      as its 32-byte big-endian encoding. */
  datatype Signature = Signature(r: Bytes32, s: Bytes32)

  /** `Signature.Serialize`: the 64-byte encoding r || s of BIP 340. */
  function Serialize(sig: Signature): (b: Bytes)
    ensures |b| == 64
    ensures b[..32] == sig.r && b[32..] == sig.s
  {
    sig.r + sig.s
  }
}
