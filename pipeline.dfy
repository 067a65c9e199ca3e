/** The message pipeline as pure functions: the guard that starts a drain,
    readMessage's dispatch on the message type, and the drain of the whole
    pending list (Process), which the App class's loop is proved against. */
module Pipeline {
  import opened SignalTypes
  import opened Routing

  /** The contents of the two stores. */
  datatype StorePair = StorePair(adi: StoreContents, sebastian: StoreContents) {
    function Get(id: StoreId): StoreContents {
      match id
      case AdiStore => adi
      case SebastianStore => sebastian
    }

    function Set(id: StoreId, s: StoreContents): (p: StorePair)
      ensures p.Get(id) == s
      ensures forall other :: other != id ==> p.Get(other) == Get(other)
    {
      match id
      case AdiStore => this.(adi := s)
      case SebastianStore => this.(sebastian := s)
    }
  }

  // ---------------------------------------------------------------------------
  // The drain guard
  // ---------------------------------------------------------------------------

  /** messages.find(m => !m.delivered) */
  function FindUndelivered(ms: seq<ChatMessage>): (r: Option<ChatMessage>)
    ensures r.None? <==> forall i :: 0 <= i < |ms| ==> ms[i].delivered
    ensures r.Some? ==> r.value in ms && !r.value.delivered
  {
    if ms == [] then None
    else if !ms[0].delivered then Some(ms[0])
    else FindUndelivered(ms[1..])
  }

  /** The effect starts a drain unless no message is undelivered or a drain is
      already running. */
  function ShouldStartDrain(ms: seq<ChatMessage>, processing: bool): (start: bool)
    ensures start <==> !processing && exists i :: 0 <= i < |ms| && !ms[i].delivered
  {
    !(FindUndelivered(ms).None? || processing)
  }

  /** Every message the demo queues is undelivered, so on such a queue the guard
      reads "something is queued and no drain is running". */
  lemma GuardOnUndeliveredQueue(ms: seq<ChatMessage>, processing: bool)
    requires forall i :: 0 <= i < |ms| ==> !ms[i].delivered
    ensures ShouldStartDrain(ms, processing) <==> !processing && ms != []
  {
    if ms != [] {
      assert !ms[0].delivered;
    }
  }

  // ---------------------------------------------------------------------------
  // readMessage
  // ---------------------------------------------------------------------------

  /** What readMessage yields: the processed message, the store as the decrypt
      left it, and whether it called setHasSession(true); or, when the decrypt
      call rejected, only the store. */
  datatype ReadOutcome =
    | Read(processed: ProcessedChatMessage, store: StoreContents, setsSession: bool)
    | ReadFailed(store: StoreContents)

  /** readMessage with the cipher (store contents and peer address) already
      chosen. Type 3 goes to the prekey-handshake decrypt and sets hasSession,
      type 1 goes to the ordinary decrypt, and any other type decodes an empty
      buffer without touching the store. */
  function ReadMessage(engine: Engine, codec: TextCodec, msg: ChatMessage, store: StoreContents, address: Address): (r: ReadOutcome)
    ensures r.Read? ==> r.processed.id == msg.id && r.processed.to == msg.to && r.processed.from == msg.from
    ensures r.Read? ==> (r.setsSession <==> msg.message.kind == PreKeyWhisperKind)
    ensures msg.message.kind == PreKeyWhisperKind ==>
      var d := engine.decryptPreKeyWhisperMessage(store, address, msg.message.body);
      && r.store == d.store
      && (r.Read? <==> d.Plaintext?)
      && (r.Read? ==> r.processed.messageText == codec.decode(d.bytes))
    ensures msg.message.kind == WhisperKind ==>
      var d := engine.decryptWhisperMessage(store, address, msg.message.body);
      && r.store == d.store
      && (r.Read? <==> d.Plaintext?)
      && (r.Read? ==> r.processed.messageText == codec.decode(d.bytes))
    ensures msg.message.kind != PreKeyWhisperKind && msg.message.kind != WhisperKind ==>
      r.Read? && r.store == store && r.processed.messageText == codec.decode([])
  {
    var kind := msg.message.kind;
    var decrypted :=
      if kind == PreKeyWhisperKind then engine.decryptPreKeyWhisperMessage(store, address, msg.message.body)
      else if kind == WhisperKind then engine.decryptWhisperMessage(store, address, msg.message.body)
      else Plaintext([], store);
    match decrypted
    case DecryptRejected(s) => ReadFailed(s)
    case Plaintext(bytes, s) =>
      Read(ProcessedChatMessage(msg.id, msg.to, msg.from, codec.decode(bytes)), s, kind == PreKeyWhisperKind)
  }

  /** With TextDecoder's behaviour on an empty buffer, a message of any type
      other than 1 or 3 reads as empty text. */
  lemma UnknownKindReadsEmpty(engine: Engine, codec: TextCodec, msg: ChatMessage, store: StoreContents, address: Address)
    requires DecodesEmptyToEmpty(codec)
    requires msg.message.kind != PreKeyWhisperKind && msg.message.kind != WhisperKind
    ensures var r := ReadMessage(engine, codec, msg, store, address);
      r.Read? && r.processed == ProcessedChatMessage(msg.id, msg.to, msg.from, "") && !r.setsSession
  {
  }

  // ---------------------------------------------------------------------------
  // The drain of the pending list
  // ---------------------------------------------------------------------------

  /** The result of draining a pending list: the processed messages in order,
      the stores and hasSession afterwards, the messages still queued, and
      whether the drain ran to the end (false when a decrypt rejected). */
  datatype DrainOutcome = DrainOutcome(
    processed: seq<ProcessedChatMessage>,
    stores: StorePair,
    hasSession: bool,
    remaining: seq<ChatMessage>,
    completed: bool)

  /** A processed message keeps the id, recipient and sender of its source. */
  predicate Carries(p: ProcessedChatMessage, m: ChatMessage) {
    p.id == m.id && p.to == m.to && p.from == m.from
  }

  /** doProcessing: shift the front message, read it with the recipient's
      receiving cipher, push the result; stop at the first rejected decrypt,
      which loses the shifted message and leaves the rest queued. */
  function Process(engine: Engine, codec: TextCodec, stores: StorePair, hasSession: bool, pending: seq<ChatMessage>): (r: DrainOutcome)
    ensures |r.processed| <= |pending|
    ensures forall i :: 0 <= i < |r.processed| ==> Carries(r.processed[i], pending[i])
    ensures r.completed <==> |r.processed| == |pending|
    ensures r.completed ==> r.remaining == []
    ensures !r.completed ==> r.remaining == pending[|r.processed| + 1..]
    ensures hasSession ==> r.hasSession
    decreases |pending|
  {
    if pending == [] then DrainOutcome([], stores, hasSession, [], true)
    else
      var msg := pending[0];
      var cipher := ReceivingSessionCipherForRecipient(msg.to);
      match ReadMessage(engine, codec, msg, stores.Get(cipher.store), cipher.address)
      case ReadFailed(s) =>
        DrainOutcome([], stores.Set(cipher.store, s), hasSession, pending[1..], false)
      case Read(p, s, setsSession) =>
        var rest := Process(engine, codec, stores.Set(cipher.store, s), hasSession || setsSession, pending[1..]);
        rest.(processed := [p] + rest.processed)
  }

  /** One step of the drain: the front message is read with its recipient's
      receiving cipher; a rejection ends the drain, otherwise the rest is
      drained in the stores and hasSession the read leaves. */
  lemma ProcessUnfold(engine: Engine, codec: TextCodec, stores: StorePair, hasSession: bool, pending: seq<ChatMessage>)
    requires pending != []
    ensures var cipher := ReceivingSessionCipherForRecipient(pending[0].to);
      var outcome := ReadMessage(engine, codec, pending[0], stores.Get(cipher.store), cipher.address);
      var st := stores.Set(cipher.store, outcome.store);
      var r := Process(engine, codec, stores, hasSession, pending);
      if outcome.ReadFailed? then r == DrainOutcome([], st, hasSession, pending[1..], false)
      else
        var rest := Process(engine, codec, st, hasSession || outcome.setsSession, pending[1..]);
        r == rest.(processed := [outcome.processed] + rest.processed)
  {
  }

  /** Neither decrypt call ever rejects. */
  ghost predicate DecryptsAlwaysSucceed(engine: Engine) {
    && (forall s, a, b :: engine.decryptPreKeyWhisperMessage(s, a, b).Plaintext?)
    && (forall s, a, b :: engine.decryptWhisperMessage(s, a, b).Plaintext?)
  }

  /** When no decrypt rejects, a drain empties the pending list and yields one
      processed message per pending message, each carrying its source's id,
      recipient and sender. */
  lemma {:induction false} ProcessDrainsAll(engine: Engine, codec: TextCodec, stores: StorePair, hasSession: bool, pending: seq<ChatMessage>)
    requires DecryptsAlwaysSucceed(engine)
    ensures var r := Process(engine, codec, stores, hasSession, pending);
      r.completed && r.remaining == [] && |r.processed| == |pending|
    decreases |pending|
  {
    if pending != [] {
      ProcessUnfold(engine, codec, stores, hasSession, pending);
      var cipher := ReceivingSessionCipherForRecipient(pending[0].to);
      var outcome := ReadMessage(engine, codec, pending[0], stores.Get(cipher.store), cipher.address);
      assert outcome.Read?;
      ProcessDrainsAll(engine, codec, stores.Set(cipher.store, outcome.store), hasSession || outcome.setsSession, pending[1..]);
    }
  }

  /** Some message among the first n of a list is a prekey handshake (type 3). */
  predicate PreKeyAmong(pending: seq<ChatMessage>, n: nat)
    requires n <= |pending|
  {
    exists i :: 0 <= i < n && pending[i].message.kind == PreKeyWhisperKind
  }

  lemma PreKeyAmongShift(pending: seq<ChatMessage>, n: nat)
    requires 0 < n <= |pending|
    ensures PreKeyAmong(pending, n) <==>
      pending[0].message.kind == PreKeyWhisperKind || PreKeyAmong(pending[1..], n - 1)
  {
    if PreKeyAmong(pending[1..], n - 1) {
      var i :| 0 <= i < n - 1 && pending[1..][i].message.kind == PreKeyWhisperKind;
      assert pending[i + 1].message.kind == PreKeyWhisperKind;
    }
    if PreKeyAmong(pending, n) {
      var i :| 0 <= i < n && pending[i].message.kind == PreKeyWhisperKind;
      if i > 0 {
        assert pending[1..][i - 1].message.kind == PreKeyWhisperKind;
      }
    }
  }

  /** After a drain hasSession is set exactly when it was set before or some
      processed message was a prekey handshake (type 3). */
  lemma {:induction false} ProcessSetsSession(engine: Engine, codec: TextCodec, stores: StorePair, hasSession: bool, pending: seq<ChatMessage>)
    ensures var r := Process(engine, codec, stores, hasSession, pending);
      r.hasSession <==> hasSession || PreKeyAmong(pending, |r.processed|)
    decreases |pending|
  {
    if pending != [] {
      ProcessUnfold(engine, codec, stores, hasSession, pending);
      var cipher := ReceivingSessionCipherForRecipient(pending[0].to);
      var outcome := ReadMessage(engine, codec, pending[0], stores.Get(cipher.store), cipher.address);
      if outcome.Read? {
        var st, h := stores.Set(cipher.store, outcome.store), hasSession || outcome.setsSession;
        ProcessSetsSession(engine, codec, st, h, pending[1..]);
        var rest := Process(engine, codec, st, h, pending[1..]);
        PreKeyAmongShift(pending, |rest.processed| + 1);
      }
    }
  }

  /** Messages of a type other than 1 or 3 are processed with empty text. */
  lemma {:induction false} ProcessUnknownKindsEmpty(engine: Engine, codec: TextCodec, stores: StorePair, hasSession: bool, pending: seq<ChatMessage>)
    requires DecodesEmptyToEmpty(codec)
    ensures var r := Process(engine, codec, stores, hasSession, pending);
      forall i :: 0 <= i < |r.processed| && pending[i].message.kind != PreKeyWhisperKind && pending[i].message.kind != WhisperKind
        ==> r.processed[i].messageText == ""
    decreases |pending|
  {
    if pending != [] {
      var msg := pending[0];
      var cipher := ReceivingSessionCipherForRecipient(msg.to);
      var r := Process(engine, codec, stores, hasSession, pending);
      match ReadMessage(engine, codec, msg, stores.Get(cipher.store), cipher.address)
      case ReadFailed(s) =>
      case Read(p, s, setsSession) =>
        var rest := Process(engine, codec, stores.Set(cipher.store, s), hasSession || setsSession, pending[1..]);
        ProcessUnknownKindsEmpty(engine, codec, stores.Set(cipher.store, s), hasSession || setsSession, pending[1..]);
        assert r.processed == [p] + rest.processed;
        forall i | 0 <= i < |r.processed| && pending[i].message.kind != PreKeyWhisperKind && pending[i].message.kind != WhisperKind
          ensures r.processed[i].messageText == ""
        {
          if i > 0 {
            assert r.processed[i] == rest.processed[i - 1];
            assert pending[1..][i - 1] == pending[i];
          }
        }
    }
  }

  /** A drain writes only the stores of the messages' recipients: a store that
      no pending message is routed to ends as it began. */
  lemma {:induction false} ProcessTouchesOnlyRecipientStores(engine: Engine, codec: TextCodec, stores: StorePair, hasSession: bool, pending: seq<ChatMessage>, id: StoreId)
    requires forall i :: 0 <= i < |pending| ==> ReceivingSessionCipherForRecipient(pending[i].to).store != id
    ensures Process(engine, codec, stores, hasSession, pending).stores.Get(id) == stores.Get(id)
    decreases |pending|
  {
    if pending != [] {
      var msg := pending[0];
      var cipher := ReceivingSessionCipherForRecipient(msg.to);
      assert cipher.store != id;
      match ReadMessage(engine, codec, msg, stores.Get(cipher.store), cipher.address)
      case ReadFailed(s) =>
      case Read(p, s, setsSession) =>
        assert forall i :: 0 <= i < |pending[1..]| ==> pending[1..][i] == pending[i + 1];
        ProcessTouchesOnlyRecipientStores(engine, codec, stores.Set(cipher.store, s), hasSession || setsSession, pending[1..], id);
    }
  }

  /** Draining a list in one run is the same as draining a prefix of it and then
      the rest: a message queued behind others is read only after them, in the
      stores they leave, and a rejection stops everything behind it. */
  lemma {:induction false} ProcessConcat(engine: Engine, codec: TextCodec, stores: StorePair, hasSession: bool, front: seq<ChatMessage>, back: seq<ChatMessage>)
    ensures var ra := Process(engine, codec, stores, hasSession, front);
      Process(engine, codec, stores, hasSession, front + back) ==
        if !ra.completed then ra.(remaining := ra.remaining + back)
        else
          var rb := Process(engine, codec, ra.stores, ra.hasSession, back);
          rb.(processed := ra.processed + rb.processed)
    decreases |front|
  {
    var whole := front + back;
    if front == [] {
      assert whole == back;
      var rb := Process(engine, codec, stores, hasSession, back);
      assert [] + rb.processed == rb.processed;
    } else {
      var msg := front[0];
      assert whole[0] == msg;
      assert whole[1..] == front[1..] + back;
      var cipher := ReceivingSessionCipherForRecipient(msg.to);
      var outcome := ReadMessage(engine, codec, msg, stores.Get(cipher.store), cipher.address);
      if outcome.Read? {
        var st, h := stores.Set(cipher.store, outcome.store), hasSession || outcome.setsSession;
        ProcessConcat(engine, codec, st, h, front[1..], back);
        var ra := Process(engine, codec, st, h, front[1..]);
        var rw := Process(engine, codec, st, h, front[1..] + back);
        assert Process(engine, codec, stores, hasSession, whole) == rw.(processed := [outcome.processed] + rw.processed);
        var rf := Process(engine, codec, stores, hasSession, front);
        assert rf == ra.(processed := [outcome.processed] + ra.processed);
        if ra.completed {
          var rb := Process(engine, codec, ra.stores, ra.hasSession, back);
          assert rw == rb.(processed := ra.processed + rb.processed);
          assert rf.processed == [outcome.processed] + ra.processed;
          ConsAppend(outcome.processed, ra.processed, rb.processed);
          assert rf.stores == ra.stores && rf.hasSession == ra.hasSession && rf.completed;
        } else {
          assert rw == ra.(remaining := ra.remaining + back);
          assert !rf.completed;
        }
      }
    }
  }

  lemma ConsAppend<T>(x: T, a: seq<T>, b: seq<T>)
    ensures [x] + (a + b) == ([x] + a) + b
  {
  }

  lemma AppendCons<T>(a: seq<T>, x: T, b: seq<T>)
    ensures (a + [x]) + b == a + ([x] + b)
  {
  }

  // ---------------------------------------------------------------------------
  // Message ids across the processed and pending lists
  // ---------------------------------------------------------------------------

  predicate StrictlyIncreasing(s: seq<int>) {
    forall i, j :: 0 <= i < j < |s| ==> s[i] < s[j]
  }

  predicate AllBelow(s: seq<int>, bound: int) {
    forall i :: 0 <= i < |s| ==> s[i] < bound
  }

  function ProcessedIds(ps: seq<ProcessedChatMessage>): (ids: seq<int>)
    ensures |ids| == |ps| && forall i :: 0 <= i < |ps| ==> ids[i] == ps[i].id
  {
    seq(|ps|, i requires 0 <= i < |ps| => ps[i].id)
  }

  function PendingIds(ms: seq<ChatMessage>): (ids: seq<int>)
    ensures |ids| == |ms| && forall i :: 0 <= i < |ms| ==> ids[i] == ms[i].id
  {
    seq(|ms|, i requires 0 <= i < |ms| => ms[i].id)
  }

  /** The ids of the processed list followed by the pending list: the whole
      conversation in the order the messages were queued. */
  function QueueIds(done: seq<ProcessedChatMessage>, pending: seq<ChatMessage>): seq<int> {
    ProcessedIds(done) + PendingIds(pending)
  }

  /** A drain keeps the conversation in enqueue order: if the ids of the
      processed list followed by the pending list increase strictly before the
      drain, they do after it, and no id appears that was not there before. */
  lemma ProcessKeepsIdOrder(engine: Engine, codec: TextCodec, stores: StorePair, hasSession: bool,
                            done: seq<ProcessedChatMessage>, pending: seq<ChatMessage>, bound: int)
    requires StrictlyIncreasing(QueueIds(done, pending))
    requires AllBelow(QueueIds(done, pending), bound)
    ensures var r := Process(engine, codec, stores, hasSession, pending);
      StrictlyIncreasing(QueueIds(done + r.processed, r.remaining)) && AllBelow(QueueIds(done + r.processed, r.remaining), bound)
    ensures var r := Process(engine, codec, stores, hasSession, pending);
      forall x :: x in QueueIds(done + r.processed, r.remaining) ==> x in QueueIds(done, pending)
  {
    var r := Process(engine, codec, stores, hasSession, pending);
    var s := QueueIds(done, pending);
    var t := QueueIds(done + r.processed, r.remaining);
    var n := |done| + |r.processed|;
    var skip := if r.completed then 0 else 1;
    assert |t| == |s| - skip;
    forall i | 0 <= i < |t| ensures t[i] == s[if i < n then i else i + 1] {
      if i < |done| {
        assert t[i] == done[i].id;
      } else if i < n {
        assert (done + r.processed)[i] == r.processed[i - |done|];
        assert Carries(r.processed[i - |done|], pending[i - |done|]);
      } else {
        assert r.remaining[i - n] == pending[i - n + |r.processed| + 1];
      }
    }
    forall i, j | 0 <= i < j < |t| ensures t[i] < t[j] {
      var i', j' := if i < n then i else i + 1, if j < n then j else j + 1;
      assert i' < j' < |s|;
      assert t[i] == s[i'] && t[j] == s[j'];
    }
    forall i | 0 <= i < |t| ensures t[i] < bound {
      assert t[i] == s[if i < n then i else i + 1];
    }
    forall x | x in t ensures x in s {
      var i :| 0 <= i < |t| && t[i] == x;
      assert s[if i < n then i else i + 1] == x;
    }
  }

  /** Queueing a message whose id is above every id so far keeps the order. */
  lemma AppendFreshId(done: seq<ProcessedChatMessage>, pending: seq<ChatMessage>, msg: ChatMessage)
    requires StrictlyIncreasing(QueueIds(done, pending))
    requires AllBelow(QueueIds(done, pending), msg.id)
    ensures StrictlyIncreasing(QueueIds(done, pending + [msg]))
    ensures AllBelow(QueueIds(done, pending + [msg]), msg.id + 1)
  {
    assert QueueIds(done, pending + [msg]) == QueueIds(done, pending) + [msg.id];
  }
}
