/** Values shared by the demo's message pipeline, its routing tables and its
    identity creation, together with the interface of the libsignal library
    that the demo calls but whose behaviour is not part of this model. */
module SignalTypes {

  type Bytes = seq<bv8>

  datatype Option<T> = None | Some(value: T)

  /** A SignalProtocolAddress: a party name and a device id. */
  datatype Address = Address(name: string, deviceId: int)

  const DuvanAddress: Address := Address("duvan", 1)
  const SebastianAddress: Address := Address("sebastian", 1)

  /** libsignal's MessageType: a numeric type tag and a binary-string body. */
  datatype MessageType = MessageType(kind: int, body: string)

  /** Tag of a PreKeyWhisperMessage, the first message of a prekey handshake. */
  const PreKeyWhisperKind: int := 3
  /** Tag of a WhisperMessage, an ordinary message of an established session. */
  const WhisperKind: int := 1

  /** A queued ciphertext message. */
  datatype ChatMessage = ChatMessage(id: int, to: string, from: string, message: MessageType, delivered: bool)

  /** A decrypted message, as shown in the conversation. */
  datatype ProcessedChatMessage = ProcessedChatMessage(id: int, to: string, from: string, messageText: string)

  datatype KeyPair = KeyPair(pubKey: Bytes, privKey: Bytes)
  datatype PreKey = PreKey(keyId: nat, keyPair: KeyPair)
  datatype SignedPreKey = SignedPreKey(keyId: nat, keyPair: KeyPair, signature: Bytes)

  /** The public projections published in a key bundle. */
  datatype SignedPublicPreKey = SignedPublicPreKey(keyId: nat, publicKey: Bytes, signature: Bytes)
  datatype PublicPreKey = PublicPreKey(keyId: nat, publicKey: Bytes)
  datatype KeyBundle = KeyBundle(
    registrationId: int,
    identityPubKey: Bytes,
    signedPreKey: SignedPublicPreKey,
    oneTimePreKeys: seq<PublicPreKey>)

  /** What the demo puts into a store under a string key. */
  datatype StoredValue = NumberValue(n: int) | KeyPairValue(keyPair: KeyPair) | StringValue(s: string)

  /** A serialized session record; its contents belong to libsignal. */
  type SessionRecord = string

  /** The contents of one SignalProtocolStore: scalar metadata written with put,
      the private halves of prekeys and signed prekeys, and the session records
      libsignal keeps per peer address. */
  datatype StoreContents = StoreContents(
    values: map<string, StoredValue>,
    preKeys: map<string, KeyPair>,
    signedPreKeys: map<nat, KeyPair>,
    sessions: map<Address, SessionRecord>)

  const EmptyStore: StoreContents := StoreContents(map[], map[], map[], map[])

  /** Outcome of a libsignal decrypt call: the plaintext bytes, or a rejection;
      either way the store as libsignal leaves it. */
  datatype Decrypted = Plaintext(bytes: Bytes, store: StoreContents) | DecryptRejected(store: StoreContents)

  /** Outcome of a libsignal encrypt call. */
  datatype Encrypted = Ciphertext(message: MessageType, store: StoreContents) | EncryptRejected(store: StoreContents)

  /** The libsignal calls the demo makes, as functions of the store they run
      against. Nothing is assumed about them. */
  datatype Engine = Engine(
    decryptPreKeyWhisperMessage: (StoreContents, Address, string) -> Decrypted,
    decryptWhisperMessage: (StoreContents, Address, string) -> Decrypted,
    encrypt: (StoreContents, Address, Bytes) -> Encrypted,
    generatePreKey: nat -> PreKey,
    generateSignedPreKey: (KeyPair, nat) -> SignedPreKey)

  /** TextEncoder / TextDecoder (UTF-8), left abstract. */
  datatype TextCodec = TextCodec(encode: string -> Bytes, decode: Bytes -> string)

  /** The one fact about UTF-8 decoding the demo relies on: the empty buffer
      decodes to the empty string. */
  ghost predicate DecodesEmptyToEmpty(codec: TextCodec) {
    codec.decode([]) == []
  }
}
