# X3DH key agreement in Dafny

A Dafny model of the Go package `x3dh`: an engine for the X3DH key agreement
(sections 3.3 and 3.4 of Signal's "The X3DH Key Agreement Protocol"). The
initiator checks the responder's pre-key bundle. It then draws an ephemeral
Curve25519 key pair and runs three Diffie-Hellman exchanges, or four when
the bundle carries a one-time pre-key. It appends the outputs in a fixed
order and feeds them to HKDF (section 2 of RFC 5869). The responder runs the
mirrored exchanges on what the initiator's first message tells it and must
reach the same 32-byte secret.

Modules, one per Go source file, plus one for the entropy source:

- `Crypto` (crypto.dfy, from crypto.go): 32-byte keys, `DHPair`, `KeyPair`.
  It also holds `Option`, standing for Go's nil pointers and nil errors, and
  `Error`, standing for Go `error` values.
- `Io` (io_reader.dfy): the entropy source, an `io.Reader`. It is a class
  whose answers are scripted in advance and which counts its reads.
- `Curve` (curve.dfy, from curve25519.go): the domain-separation prefix,
  Diffie-Hellman, and key generation. Key generation reads into a 32-byte
  array and clamps bytes 0 and 31 in place.
- `Bundles` (bundle.dfy, from pre_key_bundle.go): a pre-key bundle is the
  record of what its getters answer. The signature check has three
  outcomes: error, invalid, valid. `TestPreKeyBundle` is the test
  implementation.
- `Engine` (x3dh.dfy, from x3dh.go): the engine `X3dh`, built by `New`. It
  provides `Kdf`, `NewKeyPair`, `CalculateSecret` (initiator) and
  `SecretFromRemote` (responder). Both paths build their key material by
  successive appends to a local sequence. They are proved against the
  reference functions `InitiatorTerms` and `ResponderTerms`: the
  Diffie-Hellman outputs in protocol order, joined by `Flatten`.

Foreign code becomes parameters:

- `curve25519.ScalarMult` and `ScalarBaseMult` are function values held by
  the `Curve25519` value.
- HKDF over the engine's hash, read for 32 bytes, is a function value held
  by the engine. It returns 32 bytes and an optional error.
- Diffie-Hellman commutativity, `a·(b·G) = b·(a·G)`, is the predicate
  `Curve25519.DHCommutative`. The lemmas that need it require it.

The bundle's getters only hand back stored values: they are the datatype's
fields. `New` and `NewCurve25519` store their arguments and say so in their
contracts.

## Behaviour of the code worth knowing

- The signature check does not compile as written. The `PreKeyBundle`
  interface (pre_key_bundle.go:18) and `TestPreKeyBundle`
  (pre_key_bundle.go:46) declare `ValidSignature() bool`, with one result.
  `CalculateSecret` reads two results, `valid, err := b.ValidSignature()`
  (x3dh.go:78). The model follows the call site, not a program that builds: the check may return an error, which is passed on unchanged,
  or report invalid or valid. `TestPreKeyBundle.AsPreKeyBundle` never
  reports an error.
- A failing HKDF read still yields a populated `InitializedProtocol`, with
  the error beside it (x3dh.go:133-140).
- Key generation ignores how many bytes the reader delivered
  (curve25519.go:53). A short read of n bytes without error is not reported
  as an error. Bytes n..31 of the private key then hold whatever the reader
  left there before clamping. For a reader that writes nothing past the
  bytes it reports, that is zeros: the buffer starts zeroed
  (curve25519.go:50).
- The invalid-signature error is `PreKeyBundleInvalidSignature`, as named
  in x3dh.go:11.

## Model

| member | source | states |
|---|---|---|
| `Curve.Filled` | curve25519.go:50-53 | the key buffer after a read: byte i is the i-th delivered byte, or 0 past a short read; bytes past 32 are dropped |
| `Curve.Clamp` | curve25519.go:58-60 | byte 0 has its low three bits cleared and keeps its high five bits; byte 31 has bit 7 cleared and bit 6 set (64..127) and keeps its low six bits; bytes 1..30 are unchanged |
| `Curve.ClampFixesClamped` | curve25519.go:58-60 | clamping leaves a key unchanged if and only if it is already clamped |
| `Curve.ClampIdempotent` | curve25519.go:58-60 | clamping twice equals clamping once |
| `Curve.Curve25519.PreFix` | curve25519.go:36-45 | the prefix is exactly 32 bytes, every one 0xFF |
| `Curve.NewCurve25519` | curve25519.go:12-16 | the curve draws its keys from the given entropy source (and uses the given scalar multiplications) |
| `Curve.Curve25519.KeyExchangeCommutes` | curve25519.go:20-32 | `KeyExchange`, the scalar multiplication of our private key by their public key, is total with a 32-byte result; under commutativity, KeyExchange(my private, their public) equals KeyExchange(their private, my public) for valid key pairs |
| `Curve.Curve25519.KeyPairFrom` | curve25519.go:48-70 | a failed read gives `KeyPair{}` and that error; otherwise no error, a public key derived from the private key, a private key that is the delivered bytes, zero-padded after a short read, then clamped (so bytes 1..30 are delivered bytes) |
| `Curve.Curve25519.GenerateKeyPair` | curve25519.go:48-70 | reads the source exactly once, consumes one reply, and returns what `KeyPairFrom` gives for that reply |
| `Io.Reader.Read` | curve25519.go:53 | one read: the delivered bytes fill the front of the buffer up to its length and the rest is untouched; a failure leaves the buffer untouched and returns the error; the read is counted |
| `Bundles.TestPreKeyBundle.AsPreKeyBundle` | pre_key_bundle.go:22-48 | the getters return the stored keys, signature and optional one-time key unchanged; the check never errors and is valid exactly when the stored flag is true |
| `Engine.Flatten` | x3dh.go:113-131 | key material from n Diffie-Hellman outputs is 32·n bytes |
| `Engine.FlattenAt` | x3dh.go:113-184 | byte j of the key material is byte j mod 32 of output j div 32: the outputs appear in order |
| `Engine.FlattenInjective` | x3dh.go:113-131 | two output lists give the same key material if and only if they are equal |
| `Engine.New` | x3dh.go:30-37 | the engine holds the given curve, HKDF, protocol name and identity key pair |
| `Engine.X3dh.KdfInput` | x3dh.go:55-61 | HKDF input keying material is the 32 0xFF prefix followed by the key material; salt is 32 zero bytes; info is the protocol name |
| `Engine.X3dh.KdfInputInjective` | x3dh.go:55-61 | equal HKDF inputs imply equal key material and equal protocol names (domain separation) |
| `Engine.X3dh.Kdf` | x3dh.go:52-68 | the secret and error are those HKDF gives on `KdfInput(keyMaterial)` |
| `Engine.X3dh.NewKeyPair` | x3dh.go:70-72 | behaves exactly as the curve's key generation |
| `Engine.X3dh.InitiatorTerms` | x3dh.go:94-131 | the initiator computes four exchanges when the bundle has a one-time pre-key, else three |
| `Engine.X3dh.ResponderTerms` | x3dh.go:149-184 | the responder computes four exchanges when it holds a one-time pre-key, else three |
| `Engine.X3dh.InitiatorKeyMaterialLayout` | x3dh.go:94-131 | initiator key material is 96 bytes (128 with a one-time pre-key): DH(IK_A, SPK_B), DH(EK_A, IK_B), DH(EK_A, SPK_B), then DH(EK_A, OPK_B), byte for byte |
| `Engine.X3dh.ResponderKeyMaterialLayout` | x3dh.go:149-184 | responder key material is 96 bytes (128 with a one-time pre-key): DH(SPK_B, IK_A), DH(IK_B, EK_A), DH(SPK_B, EK_A), then DH(OPK_B, EK_A), byte for byte |
| `Engine.X3dh.CalculateSecret` | x3dh.go:75-142 | check error: that error, empty result, source untouched. Invalid signature: `PreKeyBundleInvalidSignature`, empty result, source untouched. Generation failure: that error, empty result. Otherwise one read, then the HKDF secret of the initiator key material, the bundle's one-time and signed pre-keys, the fresh ephemeral public key, and HKDF's error beside the populated result |
| `Engine.X3dh.SecretFromRemote` | x3dh.go:145-188 | the secret and error are HKDF's on the responder key material; no randomness is used |
| `Engine.Convergence` | x3dh.go:94-186 | under commutativity, when the responder's inputs match what the initiator used (same curve arithmetic, each engine possibly with its own entropy source, valid key pairs, identity and ephemeral keys passed on, private halves of the published pre-keys, one-time key on both sides or on neither), both sides compute the same outputs in order, the same key material and, with the same HKDF and protocol name, the same secret |
| `Engine.OneTimePreKeyDisagreement` | x3dh.go:118-131 | if exactly one side includes the one-time pre-key, the key materials differ |
| `Engine.KeyMaterialAgreement` | x3dh.go:113-131 | `FlattenInjective` for the initiator's and the responder's output lists: the two key materials agree exactly when the two sides computed the same exchanges in the same order |
| `Engine.Handshake` | x3dh_test.go:14-50 | one curve built by `NewCurve25519` for both parties; Alice's `CalculateSecret` on Bob's valid test bundle, then Bob's `SecretFromRemote` on Alice's identity key and ephemeral key with his own private pre-keys: when the ephemeral key could be drawn, both secrets and both errors are equal |

## Left out

- The `Curve` interface (crypto.go:11-15) is modelled by its only
  implementation, `Curve25519`. The engine is written against that type
  rather than against an interface.
- Curve25519 arithmetic (`curve25519.ScalarMult`, `ScalarBaseMult`) is
  foreign code. It is taken as given functions, and commutativity is a
  stated assumption rather than a proved fact.
- HKDF and SHA-256 (`hkdf.New`, the reader's `Read`) are foreign code. They
  are one given function from (input keying material, salt, info) to 32
  bytes and an optional error. The model takes HKDF to be a pure function
  of (input keying material, salt, info). The engine instead hands every
  HKDF call the one stateful `hash.Hash` it was built with (x3dh.go:44 and
  56-58). The "same secret" conclusion of `Engine.Convergence` rests on that
  purity.
- Io.Reader.Read: the scripted reader never writes past the bytes it
  reports delivering. An `io.Reader` may use all of the buffer as scratch
  space even on a short read. Zero bytes past a short read, in
  `Curve.Filled` and `Curve.Curve25519.KeyPairFrom`, hold only for readers
  that write nothing past what they report, `crypto/rand` among them.
- The entropy source is a scripted reader. A Go reader that writes bytes
  and also returns an error is not modelled; key generation discards the
  buffer on error anyway.
- Signature verification is done by the bundle's implementer. Only its
  outcome is modelled. `PreKeySignature` is stored and never read by the
  engine.
- That no exchange is performed after a failed key generation is not
  observable in the model, because Diffie-Hellman is a pure function. The
  model returns before computing any.
- `*PublicKey` pointers, such as the one-time pre-key passed through to
  `UsedOneTimePreKey`, are modelled as values. Aliasing between the bundle
  and the result is not captured.
- The bundle's getters are assumed to give the same answer on every call.
  The engine calls them repeatedly: `SignedPreKey()` at x3dh.go:96, 110
  and 138, `OneTimePreKey()` at x3dh.go:120, 126 and 137. A caller's bundle
  whose answers change between calls is not captured, including the nil
  dereference at x3dh.go:126 when `OneTimePreKey()` is non-nil at line 120
  and nil at line 126.
- Zeroing private keys after use and key lifetimes are not modelled.
- Engine.OneTimePreKeyDisagreement: proves only that the key materials
  differ. That the secrets differ would need HKDF to be collision-free,
  which is not assumed.
- Engine.X3dh.KdfInputInjective: proves only that different key material or
  protocol names give different HKDF inputs, not different outputs, for the
  same reason.
- The second test in x3dh_test.go (invalid signature, lines 52-68) has no
  member of its own. It is the `SignatureInvalid` case of
  `Engine.X3dh.CalculateSecret`'s contract.
