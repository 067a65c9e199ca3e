/** When the demo's two panels show their controls, as a tiny state machine
    over (aHasIdentity, bHasIdentity, hasSession). */
module Visibility {

  datatype UiState = UiState(aHasIdentity: bool, bHasIdentity: bool, hasSession: bool)

  /** Which controls one party's panel shows. */
  datatype PanelControls = PanelControls(createIdentity: bool, startSession: bool, sendMessage: bool)

  /** Duvan's panel: the create-identity button until Duvan has an identity;
      then the start-session button unless a session exists or Sebastian has no
      identity yet; the send controls whenever a session exists. */
  function DuvanPanel(s: UiState): (c: PanelControls)
    ensures c.createIdentity <==> !s.aHasIdentity
    ensures c.startSession <==> s.aHasIdentity && s.bHasIdentity && !s.hasSession
    ensures c.sendMessage <==> s.hasSession
  {
    PanelControls(
      createIdentity := !s.aHasIdentity,
      startSession := s.aHasIdentity && !(s.hasSession || !(s.aHasIdentity && s.bHasIdentity)),
      sendMessage := s.hasSession)
  }

  /** Sebastian's panel, the mirror image of Duvan's. */
  function SebastianPanel(s: UiState): (c: PanelControls)
    ensures c.createIdentity <==> !s.bHasIdentity
    ensures c.startSession <==> s.aHasIdentity && s.bHasIdentity && !s.hasSession
    ensures c.sendMessage <==> s.hasSession
  {
    PanelControls(
      createIdentity := !s.bHasIdentity,
      startSession := s.bHasIdentity && !(s.hasSession || !(s.aHasIdentity && s.bHasIdentity)),
      sendMessage := s.hasSession)
  }

  /** A start-session button and the send controls never show at once, and the
      two panels offer a session under the same condition. */
  lemma StartAndSendExclusive(s: UiState)
    ensures !(DuvanPanel(s).startSession && DuvanPanel(s).sendMessage)
    ensures !(SebastianPanel(s).startSession && SebastianPanel(s).sendMessage)
    ensures DuvanPanel(s).startSession == SebastianPanel(s).startSession
    ensures DuvanPanel(s).sendMessage == SebastianPanel(s).sendMessage
  {
  }

  const Initial: UiState := UiState(false, false, false)

  /** What changes the three flags: the two create-identity handlers, the two
      start-session handlers, and reading a prekey handshake message. */
  datatype UiEvent =
    | DuvanIdentityCreated
    | SebastianIdentityCreated
    | SessionStartedByDuvan
    | SessionStartedBySebastian
    | PreKeyMessageRead

  /** An event can happen only through the control that triggers it; a
      handshake message can be read only after it was sent from a send
      control, which shows only while hasSession holds. */
  predicate Enabled(s: UiState, e: UiEvent) {
    match e
    case DuvanIdentityCreated => DuvanPanel(s).createIdentity
    case SebastianIdentityCreated => SebastianPanel(s).createIdentity
    case SessionStartedByDuvan => DuvanPanel(s).startSession
    case SessionStartedBySebastian => SebastianPanel(s).startSession
    case PreKeyMessageRead => s.hasSession
  }

  function Step(s: UiState, e: UiEvent): (t: UiState)
    ensures s.aHasIdentity ==> t.aHasIdentity
    ensures s.bHasIdentity ==> t.bHasIdentity
    ensures s.hasSession ==> t.hasSession
  {
    match e
    case DuvanIdentityCreated => s.(aHasIdentity := true)
    case SebastianIdentityCreated => s.(bHasIdentity := true)
    case SessionStartedByDuvan => s.(hasSession := true)
    case SessionStartedBySebastian => s.(hasSession := true)
    case PreKeyMessageRead => s.(hasSession := true)
  }

  /** The state after a sequence of events, applied in order. */
  function Run(s: UiState, es: seq<UiEvent>): (t: UiState)
    decreases |es|
  {
    if es == [] then s else Run(Step(s, es[0]), es[1..])
  }

  /** Each event of the sequence is enabled in the state it is applied to. */
  predicate AllEnabled(s: UiState, es: seq<UiEvent>)
    decreases |es|
  {
    es == [] || (Enabled(s, es[0]) && AllEnabled(Step(s, es[0]), es[1..]))
  }

  /** A session exists only once both parties have identities. */
  predicate Consistent(s: UiState) {
    s.hasSession ==> s.aHasIdentity && s.bHasIdentity
  }

  /** From a consistent state, any run of enabled events stays consistent, so
      the send controls never show beside a create-identity button, and flags
      once set stay set. */
  lemma {:induction false} RunStaysConsistent(s: UiState, es: seq<UiEvent>)
    requires Consistent(s)
    requires AllEnabled(s, es)
    ensures Consistent(Run(s, es))
    ensures var t := Run(s, es);
      (s.aHasIdentity ==> t.aHasIdentity) && (s.bHasIdentity ==> t.bHasIdentity) && (s.hasSession ==> t.hasSession)
    decreases |es|
  {
    if es != [] {
      RunStaysConsistent(Step(s, es[0]), es[1..]);
    }
  }

  /** Every state the demo can reach from its start shows the send controls
      only beside both registration chips, never beside a create button. */
  lemma ReachableShowsSendOnlyWithIdentities(es: seq<UiEvent>)
    requires AllEnabled(Initial, es)
    ensures var t := Run(Initial, es);
      DuvanPanel(t).sendMessage ==> !DuvanPanel(t).createIdentity && !SebastianPanel(t).createIdentity
  {
    RunStaysConsistent(Initial, es);
  }
}
