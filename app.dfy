/** The App component's state and the handlers that change it: queueing a
    message, the effect that drains the queue, encrypting and sending, and
    identity creation. */
module DemoApp {
  import opened SignalTypes
  import opened Routing
  import opened Pipeline
  import opened Stores
  import opened KeyBundles
  import opened Visibility
  import opened MessageIds

  class App {
    const engine: Engine
    const codec: TextCodec
    /** The process-wide message id counter; it may be shared. */
    const ids: MessageIdCounter
    const adiStore: SignalProtocolStore
    const sebastianStore: SignalProtocolStore
    const directory: SignalDirectory

    var aHasIdentity: bool
    var bHasIdentity: bool
    /** Queued ciphertext messages, oldest first. */
    var messages: seq<ChatMessage>
    /** Decrypted messages, in the order they were read. */
    var processedMessages: seq<ProcessedChatMessage>
    var hasSession: bool
    /** True while a drain is running. */
    var processing: bool

    /** The two stores are distinct objects, nothing queued is marked
        delivered, and the processed list followed by the queue holds ids that
        increase strictly and are all below the counter: the conversation is
        in enqueue order and every id is fresh. */
    ghost predicate Valid()
      reads this, ids
    {
      && adiStore != sebastianStore
      && (forall i :: 0 <= i < |messages| ==> !messages[i].delivered)
      && StrictlyIncreasing(QueueIds(processedMessages, messages))
      && AllBelow(QueueIds(processedMessages, messages), ids.msgID)
    }

    constructor (engine: Engine, codec: TextCodec, ids: MessageIdCounter)
      ensures Valid()
      ensures this.engine == engine && this.codec == codec && this.ids == ids
      ensures fresh(adiStore) && fresh(sebastianStore) && fresh(directory)
      ensures adiStore.contents == EmptyStore && sebastianStore.contents == EmptyStore
      ensures directory.bundles == map[]
      ensures Ui() == Initial && !processing
      ensures messages == [] && processedMessages == []
    {
      this.engine := engine;
      this.codec := codec;
      this.ids := ids;
      adiStore := new SignalProtocolStore();
      sebastianStore := new SignalProtocolStore();
      directory := new SignalDirectory();
      aHasIdentity, bHasIdentity := false, false;
      messages, processedMessages := [], [];
      hasSession, processing := false, false;
    }

    function Ui(): UiState
      reads this
    {
      UiState(aHasIdentity, bHasIdentity, hasSession)
    }

    function Stores(): StorePair
      reads adiStore, sebastianStore
    {
      StorePair(adiStore.contents, sebastianStore.contents)
    }

    function StoreObject(id: StoreId): SignalProtocolStore {
      if id == AdiStore then adiStore else sebastianStore
    }

    /** sendMessage: queue one undelivered message with the next id, above
        every id queued or processed so far. */
    method SendMessage(to: string, from: string, message: MessageType)
      requires Valid()
      modifies this`messages, ids
      ensures Valid()
      ensures ids.msgID == old(ids.msgID) + 1
      ensures messages == old(messages) + [ChatMessage(old(ids.msgID), to, from, message, false)]
      ensures AllBelow(old(QueueIds(processedMessages, messages)), messages[|messages| - 1].id)
    {
      var id := ids.GetNewMessageID();
      var msg := ChatMessage(id, to, from, message, false);
      AppendFreshId(processedMessages, messages, msg);
      messages := messages + [msg];
    }

    /** The drain effect: unless no message is undelivered or a drain is
        running, set processing, drain, and clear processing when the drain
        finishes. A rejected decrypt ends the drain early and processing then
        stays set. */
    method DrainEffect() returns (started: bool)
      requires Valid()
      modifies this`messages, this`processedMessages, this`hasSession, this`processing
      modifies adiStore`contents, sebastianStore`contents
      ensures Valid()
      ensures started == ShouldStartDrain(old(messages), old(processing))
      ensures !started ==>
        && messages == old(messages) && processedMessages == old(processedMessages)
        && hasSession == old(hasSession) && processing == old(processing)
        && Stores() == old(Stores())
      ensures started ==>
        var r := Process(engine, codec, old(Stores()), old(hasSession), old(messages));
        && processedMessages == old(processedMessages) + r.processed
        && messages == r.remaining
        && Stores() == r.stores
        && hasSession == r.hasSession
        && processing == !r.completed
      ensures started && DecryptsAlwaysSucceed(engine) ==>
        messages == [] && !processing && |processedMessages| == |old(processedMessages)| + |old(messages)|
    {
      if !ShouldStartDrain(messages, processing) {
        return false;
      }
      ProcessKeepsIdOrder(engine, codec, Stores(), hasSession, processedMessages, messages, ids.msgID);
      if DecryptsAlwaysSucceed(engine) {
        ProcessDrainsAll(engine, codec, Stores(), hasSession, messages);
      }
      processing := true;
      var finished := DoProcessing();
      if finished {
        processing := false;
      }
      return true;
    }

    /** doProcessing: take messages off the front of the queue one at a time,
        read each with its recipient's receiving cipher and push the result.
        Returns false when a decrypt rejected. */
    method DoProcessing() returns (finished: bool)
      requires adiStore != sebastianStore
      modifies this`messages, this`processedMessages, this`hasSession
      modifies adiStore`contents, sebastianStore`contents
      ensures var r := Process(engine, codec, old(Stores()), old(hasSession), old(messages));
        && finished == r.completed
        && processedMessages == old(processedMessages) + r.processed
        && messages == r.remaining
        && Stores() == r.stores
        && hasSession == r.hasSession
    {
      ghost var r0 := Process(engine, codec, Stores(), hasSession, messages);
      ghost var p0 := processedMessages;
      while |messages| > 0
        invariant adiStore != sebastianStore
        invariant var r := Process(engine, codec, Stores(), hasSession, messages);
          && processedMessages + r.processed == p0 + r0.processed
          && r.stores == r0.stores && r.hasSession == r0.hasSession
          && r.remaining == r0.remaining && r.completed == r0.completed
        decreases |messages|
      {
        ghost var stores0, hasSession0, messages0, processed0 := Stores(), hasSession, messages, processedMessages;
        ghost var before := Process(engine, codec, stores0, hasSession0, messages0);
        ProcessUnfold(engine, codec, stores0, hasSession0, messages0);
        var nextMsg := messages[0];
        messages := messages[1..];
        var cipher := ReceivingSessionCipherForRecipient(nextMsg.to);
        var processed := ReadMessage(nextMsg, cipher);
        if processed.None? {
          assert processedMessages + [] == processedMessages;
          return false;
        }
        ghost var after := Process(engine, codec, Stores(), hasSession, messages);
        AppendCons(processed0, processed.value, after.processed);
        processedMessages := processedMessages + [processed.value];
      }
      assert processedMessages + [] == processedMessages;
      assert processedMessages == p0 + r0.processed && messages == r0.remaining;
      return true;
    }

    /** readMessage: decrypt with the cipher's store and peer address, chosen
        by the message type, and set hasSession after a prekey handshake
        message; None when the decrypt rejected. */
    method ReadMessage(msg: ChatMessage, cipher: SessionCipher) returns (processed: Option<ProcessedChatMessage>)
      requires adiStore != sebastianStore
      modifies this`hasSession, adiStore`contents, sebastianStore`contents
      ensures var outcome := Pipeline.ReadMessage(engine, codec, msg, old(Stores()).Get(cipher.store), cipher.address);
        && Stores() == old(Stores()).Set(cipher.store, outcome.store)
        && (outcome.Read? ==> processed == Some(outcome.processed) && hasSession == (old(hasSession) || outcome.setsSession))
        && (outcome.ReadFailed? ==> processed.None? && hasSession == old(hasSession))
    {
      var store := StoreObject(cipher.store);
      var outcome := Pipeline.ReadMessage(engine, codec, msg, store.contents, cipher.address);
      store.contents := outcome.store;
      if outcome.ReadFailed? {
        return None;
      }
      if outcome.setsSession {
        hasSession := true;
      }
      return Some(outcome.processed);
    }

    /** encryptAndSendMessage: encrypt in the sender's store towards the
        recipient, then queue the ciphertext from the derived sender. When the
        encrypt rejects nothing is queued. */
    method EncryptAndSendMessage(to: string, message: string) returns (sent: bool)
      requires Valid()
      modifies this`messages, ids, adiStore`contents, sebastianStore`contents
      ensures Valid()
      ensures var cipher := SessionCipherForRecipient(to);
        var enc := engine.encrypt(old(Stores()).Get(cipher.store), cipher.address, codec.encode(message));
        && Stores() == old(Stores()).Set(cipher.store, enc.store)
        && sent == enc.Ciphertext?
        && (sent ==> messages == old(messages) + [ChatMessage(old(ids.msgID), to, SenderFor(to), enc.message, false)]
                     && ids.msgID == old(ids.msgID) + 1)
        && (!sent ==> messages == old(messages) && ids.msgID == old(ids.msgID))
    {
      var cipher := SessionCipherForRecipient(to);
      var from := SenderFor(to);
      var store := StoreObject(cipher.store);
      var encrypted := engine.encrypt(store.contents, cipher.address, codec.encode(message));
      store.contents := encrypted.store;
      if encrypted.EncryptRejected? {
        return false;
      }
      SendMessage(to, from, encrypted.message);
      return true;
    }

    /** createID: write the registration id, the identity key pair and the
        private halves of one prekey and one signed prekey into the store, then
        publish their public halves under the party's name. */
    method CreateID(name: string, store: SignalProtocolStore, registrationId: int, identityKeyPair: KeyPair,
                    baseKeyId: nat, signedPreKeyId: nat)
      modifies store, directory
      ensures var preKey, signedPreKey := engine.generatePreKey(baseKeyId), engine.generateSignedPreKey(identityKeyPair, signedPreKeyId);
        && store.contents == CreateIdWrites(old(store.contents), registrationId, identityKeyPair, baseKeyId, preKey, signedPreKeyId, signedPreKey)
        && directory.bundles == old(directory.bundles)[name := PublicBundle(registrationId, identityKeyPair, preKey, signedPreKeyId, signedPreKey)]
      ensures var b := directory.bundles[name];
        && store.Get("registrationID", StringValue("")) == NumberValue(b.registrationId)
        && b.signedPreKey.keyId in store.contents.signedPreKeys
        && store.contents.signedPreKeys[b.signedPreKey.keyId].pubKey == b.signedPreKey.publicKey
        && |b.oneTimePreKeys| == 1 && b.oneTimePreKeys[0].keyId == engine.generatePreKey(baseKeyId).keyId
    {
      store.Put("registrationID", NumberValue(registrationId));
      store.Put("identityKey", KeyPairValue(identityKeyPair));
      var preKey := engine.generatePreKey(baseKeyId);
      store.StorePreKey(DecimalString(baseKeyId), preKey.keyPair);
      var signedPreKey := engine.generateSignedPreKey(identityKeyPair, signedPreKeyId);
      store.StoreSignedPreKey(signedPreKeyId, signedPreKey.keyPair);
      var publicSignedPreKey := SignedPublicPreKey(signedPreKeyId, signedPreKey.keyPair.pubKey, signedPreKey.signature);
      var publicPreKey := PublicPreKey(preKey.keyId, preKey.keyPair.pubKey);
      directory.StoreKeyBundle(name, KeyBundle(registrationId, identityKeyPair.pubKey, publicSignedPreKey, [publicPreKey]));
      BundleMatchesStore(old(store.contents), registrationId, identityKeyPair, baseKeyId, preKey, signedPreKeyId, signedPreKey);
    }

    /** createDuvanidIdentity: Duvan's identity lives in adiStore. */
    method CreateDuvanIdentity(registrationId: int, identityKeyPair: KeyPair, baseKeyId: nat, signedPreKeyId: nat)
      requires Valid()
      modifies adiStore, directory, this`aHasIdentity
      ensures Valid()
      ensures Ui() == Step(old(Ui()), DuvanIdentityCreated)
      ensures var preKey, signedPreKey := engine.generatePreKey(baseKeyId), engine.generateSignedPreKey(identityKeyPair, signedPreKeyId);
        && adiStore.contents == CreateIdWrites(old(adiStore.contents), registrationId, identityKeyPair, baseKeyId, preKey, signedPreKeyId, signedPreKey)
        && directory.bundles == old(directory.bundles)["duvan" := PublicBundle(registrationId, identityKeyPair, preKey, signedPreKeyId, signedPreKey)]
      ensures sebastianStore.contents == old(sebastianStore.contents)
    {
      CreateID("duvan", adiStore, registrationId, identityKeyPair, baseKeyId, signedPreKeyId);
      aHasIdentity := true;
    }

    /** createSebastianIdentity: Sebastian's identity lives in sebastianStore. */
    method CreateSebastianIdentity(registrationId: int, identityKeyPair: KeyPair, baseKeyId: nat, signedPreKeyId: nat)
      requires Valid()
      modifies sebastianStore, directory, this`bHasIdentity
      ensures Valid()
      ensures Ui() == Step(old(Ui()), SebastianIdentityCreated)
      ensures var preKey, signedPreKey := engine.generatePreKey(baseKeyId), engine.generateSignedPreKey(identityKeyPair, signedPreKeyId);
        && sebastianStore.contents == CreateIdWrites(old(sebastianStore.contents), registrationId, identityKeyPair, baseKeyId, preKey, signedPreKeyId, signedPreKey)
        && directory.bundles == old(directory.bundles)["sebastian" := PublicBundle(registrationId, identityKeyPair, preKey, signedPreKeyId, signedPreKey)]
      ensures adiStore.contents == old(adiStore.contents)
    {
      CreateID("sebastian", sebastianStore, registrationId, identityKeyPair, baseKeyId, signedPreKeyId);
      bHasIdentity := true;
    }
  }
}
