/** Key types shared by the curve and the protocol engine (crypto.go), plus
    the Option and error values the Go code expresses with nil pointers and
    `error` results. */
module Crypto {

  type byte = bv8

  /** Go's `[32]byte`: every key and every Diffie-Hellman output. */
  type Key32 = s: seq<byte> | |s| == 32 witness seq(32, _ => 0)

  type PrivateKey = Key32
  type PublicKey = Key32

  /** The zero value of a `[32]byte`. */
  const ZeroKey: Key32 := Zeros(32)

  /** The input of one Diffie-Hellman exchange: our private key and the
      other party's public key. */
  datatype DHPair = DHPair(privateKey: PrivateKey, publicKey: PublicKey)

  datatype KeyPair = KeyPair(publicKey: PublicKey, privateKey: PrivateKey)

  /** `KeyPair{}`, what a failing key generation returns. */
  const EmptyKeyPair := KeyPair(ZeroKey, ZeroKey)

  /** A Go pointer that may be nil, or an `error` that may be nil. */
  datatype Option<T> = None | Some(value: T)

  /** Go `error` values. Errors coming from collaborators (a reader, a
      signature check, HKDF) are opaque and are only passed on. */
  datatype Error =
    | PreKeyBundleInvalidSignature
    | External(description: string)

  function Zeros(n: nat): (z: seq<byte>)
    ensures |z| == n && forall i :: 0 <= i < n ==> z[i] == 0
  {
    seq(n, _ => 0)
  }
}
