# libsignal demo: message pipeline, routing and identity creation

This project models the sequential core of the libsignal TypeScript demo's
`App` component (`simple/src/App.tsx`). Two parties, "duvan" and "sebastian",
each own a `SignalProtocolStore` (`adiStore` and `sebastianStore`). They
publish key bundles to a `SignalDirectory` and exchange encrypted messages
through a shared queue. The queue is drained into a list of decrypted messages.

The modules:

- `SignalTypes` (signal_types.dfy) holds the records the component handles:
  addresses, `MessageType`, `ChatMessage`, `ProcessedChatMessage`, key pairs,
  prekeys and bundles. It also holds the store contents and the libsignal
  calls the component makes. Those calls are modelled as an `Engine` value of
  total functions with no assumed behaviour. Each decrypt or encrypt returns
  the store as the call leaves it, and it may reject.
- `Routing` (routing.dfy) covers the receive-side and send-side session-cipher
  choice and the sender derivation.
- `Pipeline` (pipeline.dfy) covers the drain guard, `readMessage`'s dispatch on
  the message type, and `Process`. `Process` is the specification of a whole
  drain, and the lemmas about it are here too.
- `Stores` (stores.dfy) models the store and the directory at their call
  interface, as map writes and reads.
- `KeyBundles` (key_bundles.dfy) covers what `createID` writes and publishes.
  It also covers the decimal key under which the one-time prekey is stored.
- `MessageIds` (message_ids.dfy) is the process-wide message id counter.
- `Visibility` (visibility.dfy) covers the panels' control-visibility
  conditions. They form a state machine over
  `(aHasIdentity, bHasIdentity, hasSession)`.
- `DemoApp` (app.dfy) is the component's state as a class.
  - It holds the two queues, the flags, the stores and the directory.
  - Its handlers are `SendMessage`, `DrainEffect`, `DoProcessing`,
    `ReadMessage`, `EncryptAndSendMessage`, `CreateID` and the two
    identity handlers.
  - `DoProcessing` shifts and pushes in a loop. It is proved against
    `Pipeline.Process`.
  - The class invariant has four parts. The two stores are distinct objects.
    No queued message is marked delivered. The processed ids followed by the
    queued ids increase strictly. All of them are below the counter.

Three behaviours of the code are easy to misread; the model follows the
code:

- A queued message's `delivered` flag is never set anywhere, so every queued
  message stays undelivered. The drain guard reads "something is queued and
  no drain is running" (`Pipeline.GuardOnUndeliveredQueue`).
- A message whose type is neither 1 nor 3 is not reported. It is read as the
  decoding of an empty buffer, which is empty text.
- When a decrypt rejects, the drain stops. The shifted message is lost and the
  messages behind it stay queued. `processing` is never cleared, so no later
  drain starts.

## Model

| member | source | states |
|---|---|---|
| DemoApp.App.constructor | simple/src/App.tsx:109-126 | the component starts with two fresh empty stores, an empty directory, empty queue and processed list, no identities, no session and no drain running, and the class invariant holds |
| MessageIds.MessageIdCounter.GetNewMessageID | simple/src/App.tsx:97-101 | returns the counter's current value and advances the counter by exactly one |
| MessageIds.SuccessiveIdsIncrease | simple/src/App.tsx:97-101 | two ids drawn one after the other are strictly increasing, and the counter advances by two |
| DemoApp.App.SendMessage | simple/src/App.tsx:138-141 | the queue becomes the old queue followed by exactly one undelivered message with the given to/from/message and the counter's id. That id is above every id queued or processed so far, and the ordering invariant is kept |
| Pipeline.AppendFreshId | simple/src/App.tsx:138-141 | appending a message whose id is above all earlier ids keeps the id sequence strictly increasing |
| Pipeline.FindUndelivered | simple/src/App.tsx:144 | `find(m => !m.delivered)` is absent exactly when every message is delivered; when present it is an undelivered member of the list |
| Pipeline.ShouldStartDrain | simple/src/App.tsx:143-146 | the effect proceeds exactly when no drain is running and some message is undelivered |
| Pipeline.GuardOnUndeliveredQueue | simple/src/App.tsx:143-146 | on a queue of undelivered messages the guard proceeds exactly when the queue is non-empty and no drain is running |
| DemoApp.App.DrainEffect | simple/src/App.tsx:143-172 | does nothing when the guard refuses. Otherwise: the queue and processed list become those of a full `Process` run; `processing` is cleared exactly when the drain finished; the ordering invariant holds. With decrypts that never reject, the queue ends empty, one message is processed per queued message, and `processing` is false |
| DemoApp.App.DoProcessing | simple/src/App.tsx:155-167 | the shift/read/push loop leaves exactly the result of `Process`: the processed list gains `Process`'s outputs in order, and the queue, stores and hasSession end as `Process` leaves them |
| Pipeline.Process | simple/src/App.tsx:155-167 | a drain processes at most as many messages as are pending. The i-th processed message carries the i-th pending message's id/to/from. The drain completes exactly when every message is processed. An incomplete drain leaves the messages behind the rejected one queued. hasSession is never cleared |
| Pipeline.ProcessDrainsAll | simple/src/App.tsx:155-167 | when no decrypt rejects, the pending list ends empty and there is one processed message per pending message |
| Pipeline.ProcessSetsSession | simple/src/App.tsx:155-167 | after a drain, hasSession holds exactly when it held before or some processed message had type 3 |
| Pipeline.ProcessUnknownKindsEmpty | simple/src/App.tsx:155-167 | every processed message whose source had a type other than 1 or 3 has empty text |
| Pipeline.ProcessTouchesOnlyRecipientStores | simple/src/App.tsx:148-167 | a store that no pending message is routed to is left unchanged by a drain |
| Pipeline.ProcessConcat | simple/src/App.tsx:155-167 | draining a list equals draining a prefix and then the rest in the stores the prefix leaves; a rejection in the prefix leaves the rest queued behind it |
| Pipeline.ProcessKeepsIdOrder | simple/src/App.tsx:155-167 | if the processed ids followed by the queued ids increase strictly before a drain, they do after it, stay below the bound, and every id after it was there before |
| Pipeline.ReadMessage | simple/src/App.tsx:174-194 | the result copies id/to/from. Type 3 uses the prekey decrypt's store and plaintext and sets hasSession. Type 1 uses the ordinary decrypt and does not set it. Any other type leaves the store alone and decodes an empty buffer. A rejection of either decrypt yields no message |
| Pipeline.UnknownKindReadsEmpty | simple/src/App.tsx:174-194 | a message of a type other than 1 or 3 reads as empty text with the same id/to/from, without setting hasSession |
| DemoApp.App.ReadMessage | simple/src/App.tsx:174-194 | writes the decrypt's store back into the cipher's store object. It sets hasSession after a successful type-3 read and returns the processed message, or nothing when the decrypt rejected |
| Routing.ReceivingSessionCipherForRecipient | simple/src/App.tsx:148-153 | a message to a party is decrypted in that party's own store with the other party's address; any other recipient uses adiStore with sebastianAddress |
| Routing.SessionCipherForRecipient | simple/src/App.tsx:350-355 | a message to a party is encrypted in the sender's own store towards the recipient's address; any other recipient uses adiStore with sebastianAddress |
| Routing.SenderFor | simple/src/App.tsx:359 | the derived sender is always a party, never the recipient, and is the other party when the recipient is a party |
| Routing.SendReceiveConsistent | simple/src/App.tsx:148-153 | for to = "duvan" encryption uses (sebastianStore, duvanAddress) and decryption (adiStore, sebastianAddress), and symmetrically for "sebastian"; the two stores differ and the sender's sender is the recipient |
| Routing.NonPartyLoopsBack | simple/src/App.tsx:350-359 | a recipient that is neither party is encrypted and decrypted with the same store and address, and its sender is "duvan" |
| DemoApp.App.EncryptAndSendMessage | simple/src/App.tsx:357-370 | encrypts the encoded text in the send-side cipher's store. It queues the ciphertext from the derived sender with the next id, or queues nothing when the encrypt rejects. The ordering invariant is kept |
| DemoApp.App.CreateID | simple/src/App.tsx:203-238 | the store receives the four writes in order. The directory gains the public bundle under the name. The bundle's registrationId is the stored "registrationID". Its signed prekey id is stored with the matching public key. It has one one-time prekey with the generated prekey's id |
| KeyBundles.BundleMatchesStore | simple/src/App.tsx:203-238 | the published bundle holds only public halves of the pairs kept in the store. The registration id and identity key match the stored values. The one-time prekey's public key matches the pair stored under its decimal id. Sessions are untouched |
| KeyBundles.DecimalRoundTrip | simple/src/App.tsx:214 | the decimal key `${baseKeyId}` parses back to the id |
| KeyBundles.DecimalStringInjective | simple/src/App.tsx:214 | distinct prekey ids are stored under distinct keys |
| Stores.SignalProtocolStore.PutThenGet | simple/src/App.tsx:196-201 | a value put under a key is the one `get` reads back, whatever the default, and only that key changes |
| Stores.SignalDirectory.PublishThenFetch | simple/src/App.tsx:233-238 | a bundle published under a name is the one `getPreKeyBundle` fetches back, and other names keep their bundles |
| DemoApp.App.CreateDuvanIdentity | simple/src/App.tsx:242-246 | adiStore receives `createID`'s four writes and the directory gains the public bundle under "duvan", exactly as `CreateID` gives them. The UI state takes the DuvanIdentityCreated step, and sebastianStore is untouched |
| DemoApp.App.CreateSebastianIdentity | simple/src/App.tsx:248-251 | sebastianStore receives `createID`'s four writes and the directory gains the public bundle under "sebastian", exactly as `CreateID` gives them. The UI state takes the SebastianIdentityCreated step, and adiStore is untouched |
| Visibility.DuvanPanel | simple/src/App.tsx:438-468 | the create button shows exactly without Duvan's identity. Start-session shows exactly when both have identities and no session exists. The send controls show exactly when a session exists |
| Visibility.SebastianPanel | simple/src/App.tsx:502-531 | the same three conditions for Sebastian's panel, with Sebastian's identity |
| Visibility.StartAndSendExclusive | simple/src/App.tsx:446-468 | start-session and send never show together, and both panels agree on them |
| Visibility.Step | simple/src/App.tsx:242-251 | no event clears a flag |
| Visibility.RunStaysConsistent | simple/src/App.tsx:446-531 | a run of enabled events from a state where a session implies both identities keeps that property and never clears a flag |
| Visibility.ReachableShowsSendOnlyWithIdentities | simple/src/App.tsx:446-531 | in every reachable state the send controls show only when neither create-identity button does |

## Left out

- Rendering, styling, the markdown story panel, `displayMessages` and the
  clearing of the typing fields are presentation only.
- `updateStory` fetches over the network, and the `console.log` calls are
  output only. Neither is modelled.
- The libsignal library is a foreign library: `KeyHelper`, `SessionBuilder`,
  `SessionCipher` and the cryptography. It becomes the `Engine` parameter,
  with no behaviour assumed beyond what the call sites use. A rejected call
  is taken to leave a well-defined store.
- DemoApp.App.CreateID: `generateIdentityKeyPair`, `generatePreKey` and
  `generateSignedPreKey` are taken never to reject. In the code a rejection
  would leave the earlier `put` writes in the store, skip `storeKeyBundle`
  and skip setting the identity flag; the model does not capture that path.
- `TextEncoder` and `TextDecoder` become the abstract `TextCodec`. UTF-8 is
  not modelled.
- Random draws become method parameters: the registration id, the identity
  key pair, and the two `Math.random` key ids. The key ids are
  floating-point in the code and are taken here as natural numbers.
- The message id counter is unbounded. JavaScript number precision beyond
  2^53 is not modelled.
- React scheduling and async interleaving are not modelled: effect
  re-triggering, state batching, and handlers running concurrently with a
  drain. The drain effect is one sequential method guarded by `processing`.
- The `if (!nextMsg) continue` branch cannot be taken, since the loop runs
  only while the queue is non-empty. It is not modelled.
- The optional `body` of a `MessageType` is taken to be present, as the
  code's non-null assertions assume.
- `startSessionWithSebastian` and `startSessionWithDuvanid` are left out.
  They run `SessionBuilder.processPreKey`, which lies inside the foreign
  library. Only their final `setHasSession(true)` appears, as UI events.
- `SignalProtocolStore` and `SignalDirectory` are not part of this model.
  Their operations (`put`, `get`, `storePreKey`, `storeSignedPreKey`,
  `storeKeyBundle`, `getPreKeyBundle`) are taken to be plain map writes and
  reads.
