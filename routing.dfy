/** Which store and which peer address a message is encrypted or decrypted
    with, and who sends a message addressed to a given party. The demo has two
    parties: "duvan", whose store is adiStore, and "sebastian", whose store is
    sebastianStore. */
module Routing {
  import opened SignalTypes

  /** The two SignalProtocolStore objects of the demo. */
  datatype StoreId = AdiStore | SebastianStore

  /** A SessionCipher: the store it works against and the peer it talks to. */
  datatype SessionCipher = SessionCipher(store: StoreId, address: Address)

  predicate IsParty(name: string) {
    name == "duvan" || name == "sebastian"
  }

  /** The store owned by a party: createID runs against adiStore for "duvan"
      and against sebastianStore for "sebastian". */
  function OwnStore(party: string): StoreId
    requires IsParty(party)
  {
    if party == "duvan" then AdiStore else SebastianStore
  }

  /** The protocol address of a party. */
  function AddressOf(party: string): Address
    requires IsParty(party)
  {
    if party == "duvan" then DuvanAddress else SebastianAddress
  }

  /** The other party. */
  function Peer(party: string): string
    requires IsParty(party)
  {
    if party == "duvan" then "sebastian" else "duvan"
  }

  /** getReceivingSessionCipherForRecipient: a message addressed to a party is
      decrypted in that party's own store, with the sender's address. */
  function ReceivingSessionCipherForRecipient(to: string): (c: SessionCipher)
    ensures IsParty(to) ==> c == SessionCipher(OwnStore(to), AddressOf(Peer(to)))
    ensures !IsParty(to) ==> c == SessionCipher(AdiStore, SebastianAddress)
  {
    var store := if to == "sebastian" then SebastianStore else AdiStore;
    var address := if to == "sebastian" then DuvanAddress else SebastianAddress;
    SessionCipher(store, address)
  }

  /** The sender derived from the recipient in encryptAndSendMessage: always a
      party, never the recipient itself. */
  function SenderFor(to: string): (from: string)
    ensures IsParty(from) && from != to
    ensures IsParty(to) ==> from == Peer(to)
  {
    if to == "duvan" then "sebastian" else "duvan"
  }

  /** getSessionCipherForRecipient: a message addressed to a party is
      encrypted in the sender's own store, towards the recipient's address. */
  function SessionCipherForRecipient(to: string): (c: SessionCipher)
    ensures IsParty(to) ==> c == SessionCipher(OwnStore(SenderFor(to)), AddressOf(to))
    ensures !IsParty(to) ==> c == SessionCipher(AdiStore, SebastianAddress)
  {
    var store := if to == "duvan" then SebastianStore else AdiStore;
    var address := if to == "duvan" then DuvanAddress else SebastianAddress;
    SessionCipher(store, address)
  }

  /** Between the two parties, the two halves of a session line up: the sender
      encrypts in its own store towards the recipient, the recipient decrypts in
      its own store from the sender, and the two stores differ. */
  lemma SendReceiveConsistent(to: string)
    requires IsParty(to)
    ensures var enc, dec, from := SessionCipherForRecipient(to), ReceivingSessionCipherForRecipient(to), SenderFor(to);
      && enc.store == OwnStore(from) && enc.address == AddressOf(to)
      && dec.store == OwnStore(to) && dec.address == AddressOf(from)
      && enc.store != dec.store
      && SenderFor(from) == to
  {
  }

  /** For a recipient that is neither party, the message is decrypted in the
      very store that encrypted it, with the same address. */
  lemma NonPartyLoopsBack(to: string)
    requires !IsParty(to)
    ensures SessionCipherForRecipient(to) == ReceivingSessionCipherForRecipient(to)
    ensures SenderFor(to) == "duvan"
  {
  }
}
