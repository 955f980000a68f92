/** The responder's published pre-key bundle (pre_key_bundle.go). The bundle
    is a capability the caller implements; the engine only reads its answers,
    so a bundle is modelled as the record of what its methods return. */
module Bundles {
  import opened Crypto

  /** The answer of the signature check as the engine consumes it: the check
      may fail outright, or report the signature invalid or valid. */
  datatype SignatureCheck =
    | SignatureError(err: Error)
    | SignatureInvalid
    | SignatureValid

  /** The answers of IdentityKey, SignedPreKey, PreKeySignature,
      OneTimePreKey (None for nil: the bundle has no one-time pre-key) and
      ValidSignature. */
  datatype PreKeyBundle = PreKeyBundle(
    identityKey: PublicKey,
    signedPreKey: PublicKey,
    preKeySignature: seq<byte>,
    oneTimePreKey: Option<PublicKey>,
    validSignature: SignatureCheck)

  /** The bundle used by the tests: stored fields, a stored boolean for the
      signature check. */
  datatype TestPreKeyBundle = TestPreKeyBundle(
    identityKey: PublicKey,
    signedPreKey: PublicKey,
    preKeySignature: seq<byte>,
    oneTimePreKey: Option<PublicKey>,
    validSignature: bool)
  {
    /** The test bundle seen through the bundle interface: every getter hands
        back its stored field, and the signature check never fails and is
        valid exactly when the stored flag is set. */
    function AsPreKeyBundle(): (b: PreKeyBundle)
      ensures b.identityKey == identityKey && b.signedPreKey == signedPreKey
      ensures b.preKeySignature == preKeySignature && b.oneTimePreKey == oneTimePreKey
      ensures !b.validSignature.SignatureError?
      ensures b.validSignature.SignatureValid? <==> validSignature
    {
      PreKeyBundle(identityKey, signedPreKey, preKeySignature, oneTimePreKey,
                   if validSignature then SignatureValid else SignatureInvalid)
    }
  }
}
