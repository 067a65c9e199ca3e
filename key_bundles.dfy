/** What createID writes into a party's store and what it publishes: the
    public bundle built from the freshly generated key material, and the
    private halves kept in the store. */
module KeyBundles {
  import opened SignalTypes

  // ---------------------------------------------------------------------------
  // The decimal key `${baseKeyId}` under which the one-time prekey is stored
  // ---------------------------------------------------------------------------

  predicate IsDigit(c: char) {
    '0' <= c <= '9'
  }

  function DigitChar(d: nat): (c: char)
    requires d < 10
    ensures IsDigit(c)
  {
    (d + '0' as int) as char
  }

  function DigitValue(c: char): (d: nat)
    requires IsDigit(c)
    ensures d < 10
  {
    c as int - '0' as int
  }

  /** The decimal rendering of a non-negative integer, as a template literal
      renders it: digits only, never empty. */
  function DecimalString(n: nat): (s: string)
    ensures |s| > 0
    ensures forall i :: 0 <= i < |s| ==> IsDigit(s[i])
    decreases n
  {
    if n < 10 then [DigitChar(n)] else DecimalString(n / 10) + [DigitChar(n % 10)]
  }

  /** Reading a string of digits back as a number. */
  function ParseDecimal(s: string): nat
    requires forall i :: 0 <= i < |s| ==> IsDigit(s[i])
    decreases |s|
  {
    if s == [] then 0 else 10 * ParseDecimal(s[..|s| - 1]) + DigitValue(s[|s| - 1])
  }

  lemma {:induction false} DecimalRoundTrip(n: nat)
    ensures ParseDecimal(DecimalString(n)) == n
    decreases n
  {
    var s := DecimalString(n);
    if n < 10 {
      assert s[..|s| - 1] == [];
    } else {
      DecimalRoundTrip(n / 10);
      assert s[..|s| - 1] == DecimalString(n / 10);
      assert DigitValue(s[|s| - 1]) == n % 10;
    }
  }

  /** Distinct prekey ids are stored under distinct keys. */
  lemma DecimalStringInjective(a: nat, b: nat)
    requires DecimalString(a) == DecimalString(b)
    ensures a == b
  {
    DecimalRoundTrip(a);
    DecimalRoundTrip(b);
  }

  // ---------------------------------------------------------------------------
  // createID
  // ---------------------------------------------------------------------------

  /** The bundle createID publishes: the registration id, the public identity
      key, the signed prekey under the requested id with its public half and
      signature, and the one generated one-time prekey's id and public half. */
  function PublicBundle(registrationId: int, identityKeyPair: KeyPair, preKey: PreKey,
                        signedPreKeyId: nat, signedPreKey: SignedPreKey): KeyBundle
  {
    KeyBundle(
      registrationId,
      identityKeyPair.pubKey,
      SignedPublicPreKey(signedPreKeyId, signedPreKey.keyPair.pubKey, signedPreKey.signature),
      [PublicPreKey(preKey.keyId, preKey.keyPair.pubKey)])
  }

  /** The store after createID's four writes, in order: the registration id,
      the identity key pair, the one-time prekey under its decimal id, and the
      signed prekey under its id. */
  function CreateIdWrites(store: StoreContents, registrationId: int, identityKeyPair: KeyPair,
                          baseKeyId: nat, preKey: PreKey, signedPreKeyId: nat, signedPreKey: SignedPreKey): StoreContents
  {
    var s1 := store.(values := store.values["registrationID" := NumberValue(registrationId)]);
    var s2 := s1.(values := s1.values["identityKey" := KeyPairValue(identityKeyPair)]);
    var s3 := s2.(preKeys := s2.preKeys[DecimalString(baseKeyId) := preKey.keyPair]);
    s3.(signedPreKeys := s3.signedPreKeys[signedPreKeyId := signedPreKey.keyPair])
  }

  /** The published bundle agrees with the store it came from: its registration
      id is the one stored under "registrationID", its identity key and signed
      prekey are the public halves of the pairs the store keeps, and, when the
      generator honours the requested prekey id, its one one-time prekey is the
      public half of the pair stored under that id's decimal string. Sessions
      are left alone. */
  lemma BundleMatchesStore(store: StoreContents, registrationId: int, identityKeyPair: KeyPair,
                           baseKeyId: nat, preKey: PreKey, signedPreKeyId: nat, signedPreKey: SignedPreKey)
    ensures var st := CreateIdWrites(store, registrationId, identityKeyPair, baseKeyId, preKey, signedPreKeyId, signedPreKey);
      var b := PublicBundle(registrationId, identityKeyPair, preKey, signedPreKeyId, signedPreKey);
      && "registrationID" in st.values && st.values["registrationID"] == NumberValue(b.registrationId)
      && "identityKey" in st.values && st.values["identityKey"] == KeyPairValue(identityKeyPair)
      && b.identityPubKey == identityKeyPair.pubKey
      && b.signedPreKey.keyId in st.signedPreKeys
      && st.signedPreKeys[b.signedPreKey.keyId] == signedPreKey.keyPair
      && b.signedPreKey.publicKey == signedPreKey.keyPair.pubKey
      && b.signedPreKey.signature == signedPreKey.signature
      && |b.oneTimePreKeys| == 1
      && b.oneTimePreKeys[0] == PublicPreKey(preKey.keyId, preKey.keyPair.pubKey)
      && DecimalString(baseKeyId) in st.preKeys && st.preKeys[DecimalString(baseKeyId)] == preKey.keyPair
      && (preKey.keyId == baseKeyId ==>
            DecimalString(b.oneTimePreKeys[0].keyId) in st.preKeys
            && st.preKeys[DecimalString(b.oneTimePreKeys[0].keyId)].pubKey == b.oneTimePreKeys[0].publicKey)
      && st.sessions == store.sessions
  {
  }
}
