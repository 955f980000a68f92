/** Curve25519 as the protocol uses it (curve25519.go): the domain-separation
    prefix, key generation from an entropy source with RFC 7748 clamping, and
    the Diffie-Hellman exchange. The scalar multiplications themselves belong
    to golang.org/x/crypto/curve25519 and are taken as given functions. */
module Curve {
  import opened Crypto
  import opened Io

  /** `curve25519.ScalarMult(dst, scalar, point)`. */
  type ScalarMult = (PrivateKey, PublicKey) -> Key32
  /** `curve25519.ScalarBaseMult(dst, scalar)`. */
  type ScalarBaseMult = PrivateKey -> PublicKey

  /** The byte buffer a 32-byte key is read into after a read that delivered
      `d`: the delivered bytes first, zeros after a short read, and bytes
      past the 32nd dropped. */
  function Filled(d: seq<byte>): (k: Key32)
    ensures forall i :: 0 <= i < 32 ==> k[i] == if i < |d| then d[i] else 0
  {
    if |d| >= 32 then d[..32] else d + Zeros(32 - |d|)
  }

  /** The three masks of section 5 of RFC 7748 on a Curve25519 scalar. */
  function Clamp(k: Key32): (c: Key32)
    ensures c[0] & 7 == 0 && c[0] & 0xF8 == k[0] & 0xF8
    ensures c[31] & 0x80 == 0 && c[31] & 0x40 == 0x40 && c[31] & 0x3F == k[31] & 0x3F
    ensures 64 <= c[31] <= 127
    ensures forall i :: 1 <= i < 31 ==> c[i] == k[i]
  {
    k[0 := k[0] & 248][31 := (k[31] & 127) | 64]
  }

  predicate IsClamped(k: Key32) {
    k[0] & 7 == 0 && k[31] & 0xC0 == 0x40
  }

  /** Clamping leaves exactly the clamped keys unchanged. */
  lemma ClampFixesClamped(k: Key32)
    ensures Clamp(k) == k <==> IsClamped(k)
  {
    if IsClamped(k) {
      assert k[0] & 248 == k[0];
      assert (k[31] & 127) | 64 == k[31];
      assert forall i :: 0 <= i < 32 ==> Clamp(k)[i] == k[i];
    }
  }

  /** Clamping twice is clamping once. */
  lemma ClampIdempotent(k: Key32)
    ensures Clamp(Clamp(k)) == Clamp(k)
  {
    ClampFixesClamped(Clamp(k));
  }

  datatype Curve25519 = Curve25519(
    randSource: Reader,
    scalarMult: ScalarMult,
    scalarBaseMult: ScalarBaseMult)
  {
    /** Diffie-Hellman: total, 32 bytes, no error path. */
    function KeyExchange(dh: DHPair): Key32 {
      scalarMult(dh.privateKey, dh.publicKey)
    }

    /** The curve's domain-separation prefix. */
    function PreFix(): (p: seq<byte>)
      ensures |p| == 32 && forall i :: 0 <= i < |p| ==> p[i] == 0xFF
    {
      [ 0xFF, 0xFF, 0xFF, 0xFF, 0xFF, 0xFF, 0xFF, 0xFF,
        0xFF, 0xFF, 0xFF, 0xFF, 0xFF, 0xFF, 0xFF, 0xFF,
        0xFF, 0xFF, 0xFF, 0xFF, 0xFF, 0xFF, 0xFF, 0xFF,
        0xFF, 0xFF, 0xFF, 0xFF, 0xFF, 0xFF, 0xFF, 0xFF ]
    }

    /** A key pair whose public half is derived from its private half. */
    predicate ValidKeyPair(kp: KeyPair) {
      kp.publicKey == scalarBaseMult(kp.privateKey)
    }

    /** Diffie-Hellman commutativity: a * (b * G) == b * (a * G). It is a
        property of the curve arithmetic, assumed wherever it is needed. */
    ghost predicate DHCommutative() {
      forall a: PrivateKey, b: PrivateKey ::
        scalarMult(a, scalarBaseMult(b)) == scalarMult(b, scalarBaseMult(a))
    }

    lemma KeyExchangeCommutes(mine: KeyPair, theirs: KeyPair)
      requires DHCommutative() && ValidKeyPair(mine) && ValidKeyPair(theirs)
      ensures KeyExchange(DHPair(mine.privateKey, theirs.publicKey))
           == KeyExchange(DHPair(theirs.privateKey, mine.publicKey))
    {
    }

    /** What GenerateKeyPair returns when the source answers `reply`. */
    function KeyPairFrom(reply: ReadReply): (r: (KeyPair, Option<Error>))
      ensures reply.Fail? ==> r.0 == EmptyKeyPair && r.1 == Some(reply.err)
      ensures reply.Deliver? ==> r.1 == None && ValidKeyPair(r.0)
      ensures reply.Deliver? ==> r.0.privateKey == Clamp(Filled(reply.data))
      ensures reply.Deliver? ==> r.0.privateKey[0] & 7 == 0 && 64 <= r.0.privateKey[31] <= 127
      ensures reply.Deliver? ==> forall i :: 1 <= i < 31 ==>
        r.0.privateKey[i] == if i < |reply.data| then reply.data[i] else 0
    {
      match reply
      case Fail(e) => (EmptyKeyPair, Some(e))
      case Deliver(d) => (KeyPair(scalarBaseMult(Clamp(Filled(d))), Clamp(Filled(d))), None)
    }

    /** Draws 32 bytes from the source (ignoring how many were delivered),
        clamps them in place and derives the public key. */
    method GenerateKeyPair() returns (kp: KeyPair, err: Option<Error>)
      modifies randSource
      ensures randSource.readCount == old(randSource.readCount) + 1
      ensures randSource.replies == old(randSource.Remaining())
      ensures kp == KeyPairFrom(old(randSource.NextReply())).0
      ensures err == KeyPairFrom(old(randSource.NextReply())).1
    {
      ghost var reply := randSource.NextReply();
      var priv := new byte[32](_ => 0);
      var n, e := randSource.Read(priv);
      if e.Some? {
        return EmptyKeyPair, e;
      }
      assert priv[..] == Filled(reply.data) by {
        forall i | 0 <= i < 32 ensures priv[..][i] == Filled(reply.data)[i] {
          if i < n {
            assert priv[..n][i] == reply.data[..n][i];
          } else {
            assert priv[n..][i - n] == 0;
          }
        }
      }
      ghost var filled := priv[..];
      priv[0] := priv[0] & 248;
      priv[31] := priv[31] & 127;
      priv[31] := priv[31] | 64;
      assert priv[..] == Clamp(filled);
      var pub := scalarBaseMult(priv[..]);
      kp, err := KeyPair(pub, priv[..]), None;
    }
  }

  /** A curve drawing its keys from `randSource`; the scalar multiplications
      are the library's, passed in. */
  function NewCurve25519(randSource: Reader, scalarMult: ScalarMult, scalarBaseMult: ScalarBaseMult)
    : (c: Curve25519)
    ensures c.randSource == randSource
    ensures c.scalarMult == scalarMult && c.scalarBaseMult == scalarBaseMult
  {
    Curve25519(randSource, scalarMult, scalarBaseMult)
  }
}
