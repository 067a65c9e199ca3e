/** The two collaborators createID writes to, at their call interface: a
    SignalProtocolStore (put/get, storePreKey, storeSignedPreKey) and the
    SignalDirectory of published bundles (storeKeyBundle, getPreKeyBundle).
    Their insides are not part of this model; their operations are taken to
    be plain map writes and reads. */
module Stores {
  import opened SignalTypes

  class SignalProtocolStore {
    var contents: StoreContents

    constructor ()
      ensures contents == EmptyStore
    {
      contents := EmptyStore;
    }

    /** get(key, default): the value put under key, or the default. */
    function Get(key: string, default: StoredValue): (v: StoredValue)
      reads this
      ensures key in contents.values ==> v == contents.values[key]
      ensures key !in contents.values ==> v == default
    {
      if key in contents.values then contents.values[key] else default
    }

    method Put(key: string, value: StoredValue)
      modifies this
      ensures contents == old(contents).(values := old(contents).values[key := value])
    {
      contents := contents.(values := contents.values[key := value]);
    }

    /** put then get: the value just put is the one read back, whatever the
        default. */
    method PutThenGet(key: string, value: StoredValue, default: StoredValue) returns (read: StoredValue)
      modifies this
      ensures read == value
      ensures contents == old(contents).(values := old(contents).values[key := value])
    {
      Put(key, value);
      read := Get(key, default);
    }

    method StorePreKey(keyId: string, keyPair: KeyPair)
      modifies this
      ensures contents == old(contents).(preKeys := old(contents).preKeys[keyId := keyPair])
    {
      contents := contents.(preKeys := contents.preKeys[keyId := keyPair]);
    }

    method StoreSignedPreKey(keyId: nat, keyPair: KeyPair)
      modifies this
      ensures contents == old(contents).(signedPreKeys := old(contents).signedPreKeys[keyId := keyPair])
    {
      contents := contents.(signedPreKeys := contents.signedPreKeys[keyId := keyPair]);
    }
  }

  class SignalDirectory {
    var bundles: map<string, KeyBundle>

    constructor ()
      ensures bundles == map[]
    {
      bundles := map[];
    }

    /** storeKeyBundle: publish a bundle under a name, replacing any earlier one. */
    method StoreKeyBundle(name: string, bundle: KeyBundle)
      modifies this
      ensures bundles == old(bundles)[name := bundle]
    {
      bundles := bundles[name := bundle];
    }

    /** getPreKeyBundle: the bundle published under a name, if any. */
    function GetPreKeyBundle(name: string): (b: Option<KeyBundle>)
      reads this
      ensures b.Some? <==> name in bundles
      ensures b.Some? ==> b.value == bundles[name]
    {
      if name in bundles then Some(bundles[name]) else None
    }

    /** storeKeyBundle then getPreKeyBundle: the bundle just published under a
        name is the one fetched back, and other names keep their bundles. */
    method PublishThenFetch(name: string, bundle: KeyBundle, other: string) returns (fetched: Option<KeyBundle>)
      modifies this
      ensures fetched == Some(bundle)
      ensures other != name ==> GetPreKeyBundle(other) == old(GetPreKeyBundle(other))
    {
      StoreKeyBundle(name, bundle);
      fetched := GetPreKeyBundle(name);
    }
  }
}
