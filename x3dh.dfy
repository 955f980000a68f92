/** The X3DH key-agreement engine (x3dh.go), after sections 3.3 and 3.4 of
    Signal's "The X3DH Key Agreement Protocol": the initiator derives a
    secret from the responder's pre-key bundle, the responder derives it
    again from what the initiator's first message reveals. */
module Engine {
  import opened Crypto
  import opened Io
  import opened Curve
  import opened Bundles

  type SharedSecret = Key32

  /** The arguments of `hkdf.New`: input keying material, salt and info. */
  datatype HkdfInput = HkdfInput(secret: seq<byte>, salt: seq<byte>, info: seq<byte>)

  /** What one Read of 32 bytes from the HKDF reader yields. */
  datatype HkdfOutput = HkdfOutput(okm: SharedSecret, err: Option<Error>)

  /** HKDF (section 2 of RFC 5869) over the hash the engine was built
      with, read for 32 bytes. */
  type Hkdf = HkdfInput -> HkdfOutput

  /** What the responder needs, rebuilt from the initiator's first message
      and its own private pre-keys. */
  datatype ProtocolInitialisation = ProtocolInitialisation(
    remoteIdKey: PublicKey,
    remoteEphemeralKey: PublicKey,
    myOneTimePreKey: Option<PrivateKey>,
    mySignedPreKey: PrivateKey)

  /** What the initiator obtains: the secret and the keys the responder
      must be told about. */
  datatype InitializedProtocol = InitializedProtocol(
    sharedSecret: SharedSecret,
    usedOneTimePreKey: Option<PublicKey>,
    usedSignedPreKey: PublicKey,
    ephemeralKey: PublicKey)

  /** `InitializedProtocol{}`. */
  const EmptyProtocol := InitializedProtocol(ZeroKey, None, ZeroKey, ZeroKey)

  /** Key material: Diffie-Hellman outputs appended one after the other. */
  function Flatten(terms: seq<Key32>): (km: seq<byte>)
    ensures |km| == 32 * |terms|
  {
    if terms == [] then [] else Flatten(terms[..|terms| - 1]) + terms[|terms| - 1]
  }

  lemma FlattenSnoc(terms: seq<Key32>, t: Key32)
    ensures Flatten(terms + [t]) == Flatten(terms) + t
  {
    assert (terms + [t])[..|terms|] == terms;
  }

  /** The key material of three outputs is their concatenation. */
  lemma FlattenThree(dh1: Key32, dh2: Key32, dh3: Key32)
    ensures Flatten([dh1, dh2, dh3]) == dh1 + dh2 + dh3
  {
    assert [dh1, dh2, dh3] == [] + [dh1] + [dh2] + [dh3];
    FlattenSnoc([], dh1);
    FlattenSnoc([dh1], dh2);
    FlattenSnoc([dh1, dh2], dh3);
  }

  /** Byte j of the key material is byte j % 32 of the (j / 32)-th output. */
  lemma {:induction false} FlattenAt(terms: seq<Key32>, j: nat)
    requires j < 32 * |terms|
    ensures Flatten(terms)[j] == terms[j / 32][j % 32]
  {
    var n := |terms| - 1;
    if j < 32 * n {
      FlattenAt(terms[..n], j);
    } else {
      assert j / 32 == n;
    }
  }

  /** Key material determines the outputs it was built from, in order. */
  lemma FlattenInjective(s: seq<Key32>, t: seq<Key32>)
    ensures Flatten(s) == Flatten(t) <==> s == t
  {
    if Flatten(s) == Flatten(t) {
      forall i | 0 <= i < |s| ensures s[i] == t[i] {
        forall k | 0 <= k < 32 ensures s[i][k] == t[i][k] {
          FlattenAt(s, 32 * i + k);
          FlattenAt(t, 32 * i + k);
        }
      }
    }
  }

  function PublicHalf(kp: Option<KeyPair>): Option<PublicKey> {
    match kp
    case None => None
    case Some(k) => Some(k.publicKey)
  }

  function PrivateHalf(kp: Option<KeyPair>): Option<PrivateKey> {
    match kp
    case None => None
    case Some(k) => Some(k.privateKey)
  }

  /** One party's engine: its curve, the HKDF over its hash, the protocol
      name used as HKDF info (the raw bytes of the Go string), and its
      identity key pair. Never changed after construction. */
  datatype X3dh = X3dh(curve: Curve25519, hkdf: Hkdf, info: seq<byte>, idKeyPair: KeyPair)
  {
    /** The HKDF arguments for some key material: the curve prefix followed
        by the key material, a salt of 32 zero bytes, the protocol name. */
    function KdfInput(keyMaterial: seq<byte>): (input: HkdfInput)
      ensures |input.secret| == 32 + |keyMaterial|
      ensures forall i :: 0 <= i < 32 ==> input.secret[i] == 0xFF
      ensures input.secret[32..] == keyMaterial
      ensures |input.salt| == 32 && forall i :: 0 <= i < 32 ==> input.salt[i] == 0
      ensures input.info == info
    {
      HkdfInput(curve.PreFix() + keyMaterial, Zeros(32), info)
    }

    /** Different key material or a different protocol name never reach
        HKDF as the same input. */
    lemma KdfInputInjective(other: X3dh, km: seq<byte>, otherKm: seq<byte>)
      requires KdfInput(km) == other.KdfInput(otherKm)
      ensures km == otherKm && info == other.info
    {
      assert km == KdfInput(km).secret[32..];
    }

    method Kdf(keyMaterial: seq<byte>) returns (secret: SharedSecret, err: Option<Error>)
      ensures secret == hkdf(KdfInput(keyMaterial)).okm
      ensures err == hkdf(KdfInput(keyMaterial)).err
    {
      var ikm := curve.PreFix() + keyMaterial;
      var out := hkdf(HkdfInput(ikm, Zeros(32), info));
      secret, err := out.okm, out.err;
    }

    method NewKeyPair() returns (kp: KeyPair, err: Option<Error>)
      modifies curve.randSource
      ensures curve.randSource.readCount == old(curve.randSource.readCount) + 1
      ensures curve.randSource.replies == old(curve.randSource.Remaining())
      ensures kp == curve.KeyPairFrom(old(curve.randSource.NextReply())).0
      ensures err == curve.KeyPairFrom(old(curve.randSource.NextReply())).1
    {
      kp, err := curve.GenerateKeyPair();
    }

    /** The initiator's Diffie-Hellman outputs, in protocol order. */
    function InitiatorTerms(b: PreKeyBundle, ephemeralKey: PrivateKey): (terms: seq<Key32>)
      ensures |terms| == if b.oneTimePreKey.Some? then 4 else 3
    {
      var dh1 := curve.KeyExchange(DHPair(idKeyPair.privateKey, b.signedPreKey));
      var dh2 := curve.KeyExchange(DHPair(ephemeralKey, b.identityKey));
      var dh3 := curve.KeyExchange(DHPair(ephemeralKey, b.signedPreKey));
      match b.oneTimePreKey
      case None => [dh1, dh2, dh3]
      case Some(oneTimePreKey) =>
        [dh1, dh2, dh3, curve.KeyExchange(DHPair(ephemeralKey, oneTimePreKey))]
    }

    /** The responder's Diffie-Hellman outputs, in protocol order. */
    function ResponderTerms(c: ProtocolInitialisation): (terms: seq<Key32>)
      ensures |terms| == if c.myOneTimePreKey.Some? then 4 else 3
    {
      var dh1 := curve.KeyExchange(DHPair(c.mySignedPreKey, c.remoteIdKey));
      var dh2 := curve.KeyExchange(DHPair(idKeyPair.privateKey, c.remoteEphemeralKey));
      var dh3 := curve.KeyExchange(DHPair(c.mySignedPreKey, c.remoteEphemeralKey));
      match c.myOneTimePreKey
      case None => [dh1, dh2, dh3]
      case Some(oneTimePreKey) =>
        [dh1, dh2, dh3, curve.KeyExchange(DHPair(oneTimePreKey, c.remoteEphemeralKey))]
    }

    /** The initiator's key material is 96 bytes, or 128 with a one-time
        pre-key, laid out as DH(IK_A, SPK_B) || DH(EK_A, IK_B) ||
        DH(EK_A, SPK_B) [|| DH(EK_A, OPK_B)]. */
    lemma InitiatorKeyMaterialLayout(b: PreKeyBundle, ephemeralKey: PrivateKey, j: nat)
      requires j < 32
      ensures |Flatten(InitiatorTerms(b, ephemeralKey))| == if b.oneTimePreKey.Some? then 128 else 96
      ensures Flatten(InitiatorTerms(b, ephemeralKey))[j]
           == curve.KeyExchange(DHPair(idKeyPair.privateKey, b.signedPreKey))[j]
      ensures Flatten(InitiatorTerms(b, ephemeralKey))[32 + j]
           == curve.KeyExchange(DHPair(ephemeralKey, b.identityKey))[j]
      ensures Flatten(InitiatorTerms(b, ephemeralKey))[64 + j]
           == curve.KeyExchange(DHPair(ephemeralKey, b.signedPreKey))[j]
      ensures b.oneTimePreKey.Some? ==>
        Flatten(InitiatorTerms(b, ephemeralKey))[96 + j]
        == curve.KeyExchange(DHPair(ephemeralKey, b.oneTimePreKey.value))[j]
    {
      var terms := InitiatorTerms(b, ephemeralKey);
      FlattenAt(terms, j);
      FlattenAt(terms, 32 + j);
      FlattenAt(terms, 64 + j);
      if b.oneTimePreKey.Some? {
        FlattenAt(terms, 96 + j);
      }
    }

    /** The responder's key material is 96 bytes, or 128 with a one-time
        pre-key, laid out as DH(SPK_B, IK_A) || DH(IK_B, EK_A) ||
        DH(SPK_B, EK_A) [|| DH(OPK_B, EK_A)]. */
    lemma ResponderKeyMaterialLayout(c: ProtocolInitialisation, j: nat)
      requires j < 32
      ensures |Flatten(ResponderTerms(c))| == if c.myOneTimePreKey.Some? then 128 else 96
      ensures Flatten(ResponderTerms(c))[j]
           == curve.KeyExchange(DHPair(c.mySignedPreKey, c.remoteIdKey))[j]
      ensures Flatten(ResponderTerms(c))[32 + j]
           == curve.KeyExchange(DHPair(idKeyPair.privateKey, c.remoteEphemeralKey))[j]
      ensures Flatten(ResponderTerms(c))[64 + j]
           == curve.KeyExchange(DHPair(c.mySignedPreKey, c.remoteEphemeralKey))[j]
      ensures c.myOneTimePreKey.Some? ==>
        Flatten(ResponderTerms(c))[96 + j]
        == curve.KeyExchange(DHPair(c.myOneTimePreKey.value, c.remoteEphemeralKey))[j]
    {
      var terms := ResponderTerms(c);
      FlattenAt(terms, j);
      FlattenAt(terms, 32 + j);
      FlattenAt(terms, 64 + j);
      if c.myOneTimePreKey.Some? {
        FlattenAt(terms, 96 + j);
      }
    }

    /** Initiator: check the bundle's signature, draw an ephemeral key, run
        three or four exchanges and derive the secret. */
    method CalculateSecret(b: PreKeyBundle) returns (p: InitializedProtocol, err: Option<Error>)
      modifies curve.randSource
      ensures b.validSignature.SignatureError? ==>
        p == EmptyProtocol && err == Some(b.validSignature.err) && unchanged(curve.randSource)
      ensures b.validSignature.SignatureInvalid? ==>
        p == EmptyProtocol && err == Some(PreKeyBundleInvalidSignature) && unchanged(curve.randSource)
      ensures b.validSignature.SignatureValid? ==>
        && curve.randSource.readCount == old(curve.randSource.readCount) + 1
        && curve.randSource.replies == old(curve.randSource.Remaining())
      ensures b.validSignature.SignatureValid? && old(curve.randSource.NextReply()).Fail? ==>
        p == EmptyProtocol && err == Some(old(curve.randSource.NextReply()).err)
      ensures b.validSignature.SignatureValid? && old(curve.randSource.NextReply()).Deliver? ==>
        var ephemeral := curve.KeyPairFrom(old(curve.randSource.NextReply())).0;
        var out := hkdf(KdfInput(Flatten(InitiatorTerms(b, ephemeral.privateKey))));
        && p == InitializedProtocol(out.okm, b.oneTimePreKey, b.signedPreKey, ephemeral.publicKey)
        && err == out.err
    {
      if b.validSignature.SignatureError? {
        return EmptyProtocol, Some(b.validSignature.err);
      }
      if b.validSignature.SignatureInvalid? {
        return EmptyProtocol, Some(PreKeyBundleInvalidSignature);
      }

      var ephemeralKey, genErr := curve.GenerateKeyPair();
      if genErr.Some? {
        return EmptyProtocol, genErr;
      }

      var dh1 := curve.KeyExchange(DHPair(idKeyPair.privateKey, b.signedPreKey));
      var dh2 := curve.KeyExchange(DHPair(ephemeralKey.privateKey, b.identityKey));
      var dh3 := curve.KeyExchange(DHPair(ephemeralKey.privateKey, b.signedPreKey));
      var km := dh1[..] + dh2[..];
      km := km + dh3;
      ghost var terms := [dh1, dh2, dh3];
      FlattenThree(dh1, dh2, dh3);
      if b.oneTimePreKey.Some? {
        var dh4 := curve.KeyExchange(DHPair(ephemeralKey.privateKey, b.oneTimePreKey.value));
        km := km + dh4;
        FlattenSnoc(terms, dh4);
        terms := terms + [dh4];
      }
      assert terms == InitiatorTerms(b, ephemeralKey.privateKey);

      var s, kdfErr := Kdf(km);
      p := InitializedProtocol(s, b.oneTimePreKey, b.signedPreKey, ephemeralKey.publicKey);
      err := kdfErr;
    }

    /** Responder: the mirrored exchanges, with the roles swapped. */
    method SecretFromRemote(c: ProtocolInitialisation) returns (secret: SharedSecret, err: Option<Error>)
      ensures secret == hkdf(KdfInput(Flatten(ResponderTerms(c)))).okm
      ensures err == hkdf(KdfInput(Flatten(ResponderTerms(c)))).err
    {
      var dh1 := curve.KeyExchange(DHPair(c.mySignedPreKey, c.remoteIdKey));
      var dh2 := curve.KeyExchange(DHPair(idKeyPair.privateKey, c.remoteEphemeralKey));
      var dh3 := curve.KeyExchange(DHPair(c.mySignedPreKey, c.remoteEphemeralKey));
      var km := dh1[..] + dh2[..];
      km := km + dh3;
      ghost var terms := [dh1, dh2, dh3];
      FlattenThree(dh1, dh2, dh3);
      if c.myOneTimePreKey.Some? {
        var dh4 := curve.KeyExchange(DHPair(c.myOneTimePreKey.value, c.remoteEphemeralKey));
        km := km + dh4;
        FlattenSnoc(terms, dh4);
        terms := terms + [dh4];
      }
      assert terms == ResponderTerms(c);
      secret, err := Kdf(km);
    }
  }

  /** An engine over curve `c` and HKDF `h`, with protocol name `info` and
      the party's long-term identity key pair. */
  function New(c: Curve25519, h: Hkdf, info: seq<byte>, myIdKey: KeyPair): (x: X3dh)
    ensures x.curve == c && x.hkdf == h
    ensures x.info == info && x.idKeyPair == myIdKey
  {
    X3dh(c, h, info, myIdKey)
  }

  /** The responder's inputs are what the initiator used: the initiator's
      identity and ephemeral public keys, and the private halves of the
      pre-keys whose public halves the bundle published. The two engines
      share the curve arithmetic; each may draw from its own entropy
      source. */
  ghost predicate Matching(alice: X3dh, bob: X3dh, bundle: PreKeyBundle, ephemeral: KeyPair,
                           signedPreKey: KeyPair, oneTimePreKey: Option<KeyPair>,
                           init: ProtocolInitialisation)
  {
    && alice.curve.scalarMult == bob.curve.scalarMult
    && alice.curve.ValidKeyPair(alice.idKeyPair)
    && alice.curve.ValidKeyPair(bob.idKeyPair)
    && alice.curve.ValidKeyPair(signedPreKey)
    && alice.curve.ValidKeyPair(ephemeral)
    && (oneTimePreKey.Some? ==> alice.curve.ValidKeyPair(oneTimePreKey.value))
    && bundle.identityKey == bob.idKeyPair.publicKey
    && bundle.signedPreKey == signedPreKey.publicKey
    && bundle.oneTimePreKey == PublicHalf(oneTimePreKey)
    && init == ProtocolInitialisation(alice.idKeyPair.publicKey, ephemeral.publicKey,
                                      PrivateHalf(oneTimePreKey), signedPreKey.privateKey)
  }

  /** Convergence: with Diffie-Hellman commutativity, both sides compute the
      same outputs in the same order, hence byte-identical key material and,
      with the same HKDF and protocol name, the same secret. */
  lemma Convergence(alice: X3dh, bob: X3dh, bundle: PreKeyBundle, ephemeral: KeyPair,
                    signedPreKey: KeyPair, oneTimePreKey: Option<KeyPair>,
                    init: ProtocolInitialisation)
    requires alice.curve.DHCommutative()
    requires Matching(alice, bob, bundle, ephemeral, signedPreKey, oneTimePreKey, init)
    ensures alice.InitiatorTerms(bundle, ephemeral.privateKey) == bob.ResponderTerms(init)
    ensures Flatten(alice.InitiatorTerms(bundle, ephemeral.privateKey)) == Flatten(bob.ResponderTerms(init))
    ensures alice.hkdf == bob.hkdf && alice.info == bob.info ==>
      alice.hkdf(alice.KdfInput(Flatten(alice.InitiatorTerms(bundle, ephemeral.privateKey))))
      == bob.hkdf(bob.KdfInput(Flatten(bob.ResponderTerms(init))))
  {
    var curve := alice.curve;
    curve.KeyExchangeCommutes(alice.idKeyPair, signedPreKey);
    curve.KeyExchangeCommutes(ephemeral, bob.idKeyPair);
    curve.KeyExchangeCommutes(ephemeral, signedPreKey);
    if oneTimePreKey.Some? {
      curve.KeyExchangeCommutes(ephemeral, oneTimePreKey.value);
    }
  }

  /** If one side includes the one-time pre-key and the other does not, the
      key material differs. */
  lemma OneTimePreKeyDisagreement(alice: X3dh, bob: X3dh, bundle: PreKeyBundle,
                                  ephemeralKey: PrivateKey, init: ProtocolInitialisation)
    requires bundle.oneTimePreKey.Some? != init.myOneTimePreKey.Some?
    ensures Flatten(alice.InitiatorTerms(bundle, ephemeralKey)) != Flatten(bob.ResponderTerms(init))
  {
  }

  /** Both sides derive equal key material exactly when they computed the
      same Diffie-Hellman outputs in the same order. */
  lemma KeyMaterialAgreement(alice: X3dh, bob: X3dh, bundle: PreKeyBundle,
                             ephemeralKey: PrivateKey, init: ProtocolInitialisation)
    ensures Flatten(alice.InitiatorTerms(bundle, ephemeralKey)) == Flatten(bob.ResponderTerms(init))
        <==> alice.InitiatorTerms(bundle, ephemeralKey) == bob.ResponderTerms(init)
  {
    FlattenInjective(alice.InitiatorTerms(bundle, ephemeralKey), bob.ResponderTerms(init));
  }

  /** Alice runs CalculateSecret against Bob's test bundle, Bob runs
      SecretFromRemote on what Alice's result tells him: when Alice's
      ephemeral key could be drawn, both hold the same secret. */
  method Handshake(randSource: Reader, scalarMult: ScalarMult, scalarBaseMult: ScalarBaseMult,
                   hkdf: Hkdf, info: seq<byte>, aliceId: KeyPair, bobId: KeyPair,
                   bobSignedPreKey: KeyPair, bobOneTimePreKey: Option<KeyPair>)
    returns (initiated: InitializedProtocol, aliceErr: Option<Error>,
             bobSecret: SharedSecret, bobErr: Option<Error>)
    requires Curve25519(randSource, scalarMult, scalarBaseMult).DHCommutative()
    requires aliceId.publicKey == scalarBaseMult(aliceId.privateKey)
    requires bobId.publicKey == scalarBaseMult(bobId.privateKey)
    requires bobSignedPreKey.publicKey == scalarBaseMult(bobSignedPreKey.privateKey)
    requires bobOneTimePreKey.Some? ==>
      bobOneTimePreKey.value.publicKey == scalarBaseMult(bobOneTimePreKey.value.privateKey)
    modifies randSource
    ensures old(randSource.NextReply()).Deliver? ==>
      initiated.sharedSecret == bobSecret && aliceErr == bobErr
  {
    ghost var reply := randSource.NextReply();
    var curve := NewCurve25519(randSource, scalarMult, scalarBaseMult);
    var alice := New(curve, hkdf, info, aliceId);
    var bundle := TestPreKeyBundle(bobId.publicKey, bobSignedPreKey.publicKey, [],
                                   PublicHalf(bobOneTimePreKey), true).AsPreKeyBundle();
    initiated, aliceErr := alice.CalculateSecret(bundle);

    var bob := New(curve, hkdf, info, bobId);
    var init := ProtocolInitialisation(aliceId.publicKey, initiated.ephemeralKey,
                                       PrivateHalf(bobOneTimePreKey), bobSignedPreKey.privateKey);
    bobSecret, bobErr := bob.SecretFromRemote(init);

    if reply.Deliver? {
      var ephemeral := curve.KeyPairFrom(reply).0;
      Convergence(alice, bob, bundle, ephemeral, bobSignedPreKey, bobOneTimePreKey, init);
    }
  }
}
