/**
 States, messages and timers of the SHIP handshake (sections 13.4.3 to 13.4.6 of SHIP TS 1.0.1),
 as ship/ and model/ define them.
 */
module ShipModel {
  import opened Basics

  datatype Role = Client | Server

  // The states of ShipMessageExchangeState that the code ever assigns.
  datatype State =
    | CmiInitStart | CmiClientSend | CmiClientWait | CmiClientEvaluate | CmiServerWait | CmiServerEvaluate
    | Hello | HelloReadyInit | HelloReadyListen | HelloPendingInit | HelloPendingListen | HelloOk
    | HelloAbort | HelloAbortDone | HelloRemoteAbortDone | HelloRejected
    | ProtServerInit | ProtClientInit | ProtServerListenProposal | ProtServerListenConfirm
    | ProtClientListenChoice | ProtClientOk | ProtServerOk
    | PinCheckInit | PinCheckListen | PinCheckOk
    | AccessMethodsRequest | Approved | Complete | Error

  // ---------------------------------------------------------------- messages

  datatype Phase = Ready | Pending | Aborted | OtherPhase

  datatype HelloBody = HelloBody(phase: Phase, waiting: Option<nat>, prolongation: Option<bool>)

  datatype HandshakeKind = AnnounceMax | Select | OtherKind

  datatype Format = Utf8 | OtherFormat

  datatype HandshakeBody = HandshakeBody(kind: HandshakeKind, major: nat, minor: nat, formats: seq<Format>)

  datatype Pin = PinNone | PinRequired | PinOptional | PinOk | OtherPin

  datatype Access = BadAccess | Request | Methods(id: Option<string>)

  datatype ClosePhase = Announce | Confirm | OtherClose

  datatype AbortReason = Timedout | UnexpectedMessage | SelectionMismatch

  datatype Message =
    | CmiMessage
    | HelloMessage(hello: HelloBody)
    | HandshakeMessage(handshake: HandshakeBody)
    | HandshakeErrorMessage(reason: AbortReason)
    | PinMessage(pin: Pin)
    | AccessRequestMessage
    | AccessMethodsMessage(shipId: Option<string>)
    | CloseMessage(closePhase: ClosePhase)
    // Anything else a peer may send, described by what each parser makes of it.
    | ForeignMessage(cmi: bool, asHello: Option<HelloBody>, asHandshake: Option<HandshakeBody>,
                     asPin: Option<Pin>, asAccess: Access)

  /*
   What the parsers return for a message. JSON of another kind unmarshals into zero values, the
   two-byte CMI message and a missing message are no JSON at all.
   */

  predicate IsCmi(m: Option<Message>) {
    match m
    case None => true
    case Some(ForeignMessage(cmi, _, _, _, _)) => cmi
    case Some(x) => x.CmiMessage?
  }

  function AsHello(m: Option<Message>): Option<HelloBody> {
    match m
    case None => None
    case Some(CmiMessage) => None
    case Some(HelloMessage(h)) => Some(h)
    case Some(ForeignMessage(_, h, _, _, _)) => h
    case Some(_) => Some(HelloBody(OtherPhase, None, None))
  }

  function AsHandshake(m: Option<Message>): Option<HandshakeBody> {
    match m
    case None => None
    case Some(CmiMessage) => None
    case Some(HandshakeMessage(h)) => Some(h)
    case Some(ForeignMessage(_, _, h, _, _)) => h
    case Some(_) => Some(HandshakeBody(OtherKind, 0, 0, []))
  }

  function AsPin(m: Option<Message>): Option<Pin> {
    match m
    case None => None
    case Some(CmiMessage) => None
    case Some(PinMessage(p)) => Some(p)
    case Some(ForeignMessage(_, _, _, p, _)) => p
    case Some(_) => Some(OtherPin)
  }

  function AsAccess(m: Option<Message>): Access {
    match m
    case Some(AccessRequestMessage) => Request
    case Some(AccessMethodsMessage(id)) => Methods(id)
    case Some(ForeignMessage(_, _, _, _, a)) => a
    case _ => BadAccess
  }

  // ---------------------------------------------------------------- timers, in nanoseconds

  const MILLISECOND: int := 1_000_000
  const SECOND: int := 1_000_000_000
  const CMI_TIMEOUT: int := 10 * SECOND
  const HELLO_INIT: int := 60 * SECOND
  const PROLONG_MIN: int := 1 * SECOND
  const PROLONG_THRESHOLD: int := 30 * SECOND

  datatype TimerKind = WaitForReady | SendProlongationRequest | ProlongRequestReply

  datatype Timer = Timer(running: bool, kind: TimerKind, duration: int)

  /** A waiting value in milliseconds as a 64-bit duration, which wraps around. */
  function WaitingDuration(waiting: nat): (d: int)
    ensures waiting * MILLISECOND < 0x8000_0000_0000_0000 ==> d == waiting * MILLISECOND
    ensures (waiting * MILLISECOND - d) % 0x1_0000_0000_0000_0000 == 0
    ensures -0x8000_0000_0000_0000 <= d < 0x8000_0000_0000_0000
  {
    var wrapped := (waiting * MILLISECOND) % 0x1_0000_0000_0000_0000;
    if wrapped < 0x8000_0000_0000_0000 then wrapped else wrapped - 0x1_0000_0000_0000_0000
  }

  // ---------------------------------------------------------------- the messages this implementation sends

  function HelloText(phase: Phase, waitingDuration: int, prolongation: bool): Message {
    HelloMessage(HelloBody(phase,
                           if waitingDuration > 0 then Some(waitingDuration / MILLISECOND) else None,
                           if prolongation then Some(true) else None))
  }

  const READY := HelloText(Ready, HELLO_INIT, false)
  const PENDING := HelloText(Pending, HELLO_INIT, false)
  const PROLONG := HelloText(Pending, 0, true)
  const ABORTED := HelloText(Aborted, 0, false)
  const ANNOUNCE := HandshakeMessage(HandshakeBody(AnnounceMax, 1, 0, [Utf8]))
  const SELECT := HandshakeMessage(HandshakeBody(Select, 1, 0, [Utf8]))
  const PIN_NONE := PinMessage(PinNone)
}
