/**
 One end of a SHIP connection as a value, and what one event does to it.

 The functions say where a whole event ends up: the chain of nested state changes that one message,
 one timeout or one user call sets off is written out flat, without recursion. ShipConnection proves
 that the mutually recursive handlers of ship/ compute exactly these functions.
 */
module ShipEndpoint {
  import opened Basics
  import opened ShipModel
  import W = ShipWire

  /** The answers the hub gives during one event. */
  datatype Hub = Hub(paired: bool, autoAccept: bool, waitAllowed: bool)

  datatype Conn = Conn(
    role: Role,
    localId: string,
    remoteId: string,
    state: State,
    timer: Timer,
    lastWaiting: int,
    open: bool,       // the data connection is not closed
    shutdown: bool,   // CloseConnection has run
    reader: bool,     // the SPINE read handler is set
    net: seq<bool>,   // outcomes of the coming writes of this event; a missing outcome is a success
    path: seq<State>, // every state entered so far
    sent: seq<Message>)

  // ---------------------------------------------------------------- primitive effects

  function Enter(c: Conn, s: State): (r: Conn)
    ensures r.state == s
  {
    if c.state == s then c else c.(state := s, path := c.path + [s])
  }

  function StopTimer(c: Conn): (r: Conn)
    ensures r.state == c.state
  {
    c.(timer := c.timer.(running := false))
  }

  function Arm(c: Conn, kind: TimerKind, duration: int): Conn {
    c.(timer := Timer(true, kind, duration))
  }

  function SetState(c: Conn, s: State): (r: Conn)
    ensures r.state == s && r.role == c.role
  {
    var d := Enter(c, s);
    match s
    case HelloReadyInit => Arm(d, WaitForReady, HELLO_INIT)
    case HelloPendingInit => Arm(d, WaitForReady, HELLO_INIT)
    case HelloOk => StopTimer(d)
    case HelloAbort => StopTimer(d)
    case HelloAbortDone => StopTimer(d)
    case HelloRemoteAbortDone => StopTimer(d)
    case HelloRejected => StopTimer(d)
    case ProtClientListenChoice => Arm(d, WaitForReady, CMI_TIMEOUT)
    case ProtClientOk => StopTimer(d)
    case _ => d
  }

  function CloseOnce(c: Conn): Conn {
    if c.shutdown then c else StopTimer(c).(shutdown := true, open := false)
  }

  /** WriteMessageToWebsocketConnection. */
  function Write(c: Conn, m: Message): (r: (Conn, bool))
    ensures r.0.state == c.state && r.0.role == c.role
    ensures r.1 ==> c.open
  {
    if !c.open then (c, false)
    else if c.net == [] then (c.(sent := c.sent + [m]), true)
    else if c.net[0] then (c.(net := c.net[1..], sent := c.sent + [m]), true)
    else (c.(net := c.net[1..]), false)
  }

  /** sendShipModel: on a closed data connection it also runs CloseConnection. */
  function Send(c: Conn, m: Message): (r: (Conn, bool))
    ensures r.0.state == c.state && r.0.role == c.role
    ensures r.1 ==> c.open
  {
    if !c.open then (CloseOnce(c), false) else Write(c, m)
  }

  /** endHandshakeWithError. */
  function Fail(c: Conn): (r: Conn)
    ensures r.state == Error && r.role == c.role
  {
    CloseOnce(SetState(StopTimer(c), Error))
  }

  /** abortProtocolHandshake. */
  function AbortProtocol(c: Conn, reason: AbortReason): (r: Conn)
    ensures r.state == Error && r.role == c.role
  {
    CloseOnce(SetState(Send(StopTimer(c), HandshakeErrorMessage(reason)).0, Error))
  }

  // ---------------------------------------------------------------- chains of states, each run to rest

  /** From SME_HELLO_ABORT. */
  function SendAborted(c: Conn): (r: Conn)
    ensures r.state in {HelloAbortDone, Error} && r.role == c.role
  {
    var (d, ok) := Send(StopTimer(c), ABORTED);
    if ok then SetState(d, HelloAbortDone) else Fail(d)
  }

  function AbortHello(c: Conn): (r: Conn)
    ensures r.state in {HelloAbortDone, Error} && r.role == c.role
  {
    SendAborted(SetState(c, HelloAbort))
  }

  /** From SME_HELLO_STATE_READY_INIT. */
  function SendReady(c: Conn): (r: Conn)
    ensures r.state in {HelloReadyListen, HelloAbortDone, Error} && r.role == c.role
  {
    var (d, ok) := Send(c, READY);
    if ok then SetState(d, HelloReadyListen) else AbortHello(d)
  }

  /** From SME_HELLO_STATE_PENDING_INIT. */
  function SendPending(c: Conn, hub: Hub): (r: Conn)
    ensures r.state in {HelloPendingListen, HelloAbortDone, Error} && r.role == c.role
  {
    var (d, ok) := Send(c, PENDING);
    if !ok then Fail(d)
    else if hub.waitAllowed then SetState(d, HelloPendingListen)
    else AbortHello(SetState(d, HelloPendingListen))
  }

  /** From SME_HELLO. */
  function ChooseHello(c: Conn, hub: Hub): (r: Conn)
    ensures r.state in {HelloReadyListen, HelloPendingListen, HelloAbortDone, Error} && r.role == c.role
  {
    if hub.paired || hub.autoAccept || c.role == Client
    then SendReady(SetState(c, HelloReadyInit))
    else SendPending(SetState(c, HelloPendingInit), hub)
  }

  /** From SME_HELLO_OK. */
  function StartProtocol(c: Conn): (r: Conn)
    ensures r.state in {ProtServerListenProposal, ProtClientListenChoice, Error} && r.role == c.role
  {
    if c.role == Server then
      SetState(Arm(SetState(c, ProtServerInit), WaitForReady, CMI_TIMEOUT), ProtServerListenProposal)
    else
      var (d, ok) := Send(SetState(c, ProtClientInit), ANNOUNCE);
      if ok then SetState(d, ProtClientListenChoice) else Fail(d)
  }

  function AcceptHello(c: Conn): (r: Conn)
    ensures r.state in {ProtServerListenProposal, ProtClientListenChoice, Error} && r.role == c.role
  {
    StartProtocol(SetState(c, HelloOk))
  }

  /** From SME_PIN_CHECK_INIT. */
  function SendPin(c: Conn): (r: Conn)
    ensures r.state in {PinCheckListen, Error} && r.role == c.role
  {
    var (d, ok) := Send(c, PIN_NONE);
    if ok then SetState(d, PinCheckListen) else Fail(d)
  }

  function StartPin(c: Conn): (r: Conn)
    ensures r.state in {PinCheckListen, Error} && r.role == c.role
  {
    SendPin(SetState(c, PinCheckInit))
  }

  /** From SME_PIN_CHECK_OK. */
  function RequestAccess(c: Conn): (r: Conn)
    ensures r.state in {AccessMethodsRequest, Error} && r.role == c.role
  {
    var (d, ok) := Send(c, AccessRequestMessage);
    if ok then SetState(Arm(d, WaitForReady, CMI_TIMEOUT), AccessMethodsRequest) else Fail(d)
  }

  function Finish(c: Conn): (r: Conn)
    ensures r.state == Complete && r.role == c.role
  {
    SetState(StopTimer(SetState(c, Approved).(reader := true)), Complete)
  }

  // ---------------------------------------------------------------- one message, by state

  function OnClientCmi(c: Conn, hub: Hub, m: Option<Message>): Conn {
    var d := SetState(c, CmiClientEvaluate);
    if IsCmi(m) then ChooseHello(SetState(d, Hello), hub) else Fail(RejectCmi(d))
  }

  /** Only a server answers an invalid CMI message. */
  function RejectCmi(c: Conn): Conn {
    if c.role == Server then Write(c, CmiMessage).0 else c
  }

  function OnServerCmi(c: Conn, hub: Hub, m: Option<Message>): Conn {
    var d := SetState(c, CmiServerEvaluate);
    if !IsCmi(m) then Fail(RejectCmi(d)) else
    var (e, ok) := Write(d, CmiMessage);
    if ok then ChooseHello(SetState(e, Hello), hub) else Fail(e)
  }

  function OnReadyListen(c: Conn, hub: Hub, m: Option<Message>): Conn {
    match AsHello(m)
    case None => AbortHello(c)
    case Some(hello) =>
      match hello.phase
      case Ready => AcceptHello(c)
      case Pending =>
        if hello.prolongation == Some(true) then
          var d := if hub.waitAllowed then Arm(c, WaitForReady, HELLO_INIT) else c;
          var (e, ok) := Send(d, READY);
          if ok then e else Fail(e)
        else c
      case Aborted => SetState(c, HelloRemoteAbortDone)
      case OtherPhase => AbortHello(c)
  }

  function OnPeerPending(c: Conn, hello: HelloBody): Conn {
    if hello.waiting.Some? && hello.prolongation == None then
      var d := WaitingDuration(hello.waiting.value);
      var e := StopTimer(c).(lastWaiting := d);
      if d >= PROLONG_THRESHOLD then Arm(e, SendProlongationRequest, d - PROLONG_THRESHOLD)
      else if d < PROLONG_MIN then AbortHello(e)
      else e
    else if hello.waiting == None && hello.prolongation == Some(true) then
      var (e, ok) := Send(c, PENDING);
      if ok then e else Fail(e)
    else AbortHello(c)
  }

  function OnPendingListen(c: Conn, m: Option<Message>): Conn {
    match AsHello(m)
    case None => AbortHello(c)
    case Some(hello) =>
      match hello.phase
      case Ready =>
        if hello.waiting == None then AbortHello(c) else
        var d := WaitingDuration(hello.waiting.value);
        // Between the minimum and the threshold the code handles the state again without a message,
        // which aborts as well.
        if d >= PROLONG_THRESHOLD then Arm(StopTimer(c), SendProlongationRequest, d - PROLONG_THRESHOLD)
        else AbortHello(StopTimer(c))
      case Pending => OnPeerPending(c, hello)
      case Aborted => SetState(c, HelloRemoteAbortDone)
      case OtherPhase => AbortHello(c)
  }

  function OnProposal(c: Conn, m: Option<Message>): Conn {
    var h := AsHandshake(m);
    if h == None || h.value.kind != AnnounceMax then AbortProtocol(c, UnexpectedMessage) else
    var (d, ok) := Send(StopTimer(c), SELECT);
    if ok then SetState(Arm(d, WaitForReady, CMI_TIMEOUT), ProtServerListenConfirm) else Fail(d)
  }

  function OnConfirm(c: Conn, m: Option<Message>): Conn {
    var h := AsHandshake(m);
    if h == None then AbortProtocol(c, UnexpectedMessage)
    else if h.value.kind != Select then AbortProtocol(c, SelectionMismatch)
    else StartPin(SetState(StopTimer(c), ProtServerOk))
  }

  predicate ValidSelection(h: HandshakeBody) {
    h.major == 1 && h.minor == 0 && h.formats == [Utf8]
  }

  function OnChoice(c: Conn, m: Option<Message>): Conn {
    var h := AsHandshake(m);
    if h == None || h.value.kind != Select then AbortProtocol(c, UnexpectedMessage)
    else if !ValidSelection(h.value) then AbortProtocol(c, SelectionMismatch) else
    var (d, ok) := Send(StopTimer(c), SELECT);
    if ok then StartPin(SetState(d, ProtClientOk)) else Fail(d)
  }

  function OnPin(c: Conn, m: Option<Message>): Conn {
    if AsPin(m) == Some(PinNone) then RequestAccess(SetState(c, PinCheckOk)) else Fail(c)
  }

  function OnAccess(c: Conn, m: Option<Message>): Conn {
    match AsAccess(m)
    case BadAccess => Fail(c)
    case Request =>
      var (d, ok) := Send(c, AccessMethodsMessage(Some(c.localId)));
      if ok then d else Fail(d)
    case Methods(None) => Fail(c)
    case Methods(Some(id)) =>
      if c.remoteId != "" && c.remoteId != id then Fail(c)
      else Finish(c.(remoteId := id))
  }

  // ---------------------------------------------------------------- one event

  /** What handling a message without a timeout does in the states the handshake rests in. */
  function OnWaiting(c: Conn, hub: Hub, m: Option<Message>): Conn {
    match c.state
    case CmiClientWait => OnClientCmi(c, hub, m)
    case CmiServerWait => OnServerCmi(c, hub, m)
    case HelloReadyListen => OnReadyListen(c, hub, m)
    case HelloPendingListen => OnPendingListen(c, m)
    case ProtServerListenProposal => OnProposal(c, m)
    case ProtServerListenConfirm => OnConfirm(c, m)
    case ProtClientListenChoice => OnChoice(StopTimer(c), m)
    case PinCheckListen => OnPin(c, m)
    case AccessMethodsRequest => OnAccess(c, m)
    case _ => c
  }

  function OnMessage(c: Conn, hub: Hub, m: Message): Conn {
    match m
    case CloseMessage(Announce) => Send(c, CloseMessage(Confirm)).0.(open := false)
    case CloseMessage(Confirm) => c.(open := false)
    case CloseMessage(OtherClose) => c
    case _ => OnWaiting(c, hub, Some(m))
  }

  function OnRun(c: Conn): Conn {
    if c.role == Client then
      var (d, ok) := Write(SetState(c, CmiClientSend), CmiMessage);
      if ok then Arm(SetState(d, CmiClientWait), WaitForReady, CMI_TIMEOUT) else Fail(d)
    else
      Arm(SetState(c, CmiServerWait), WaitForReady, CMI_TIMEOUT)
  }

  /** Asking the peer for more time; replyTime is what is left when none was ever announced. */
  function RequestProlongation(c: Conn): Conn {
    var (d, ok) := Send(c, PROLONG);
    if ok then Arm(d, ProlongRequestReply, if d.lastWaiting == 0 then HELLO_INIT else d.lastWaiting) else Fail(d)
  }

  /** Without permission to wait, one last request is made if the timer was the one to send it. */
  function PendingTimeout(c: Conn): Conn {
    if c.timer.kind != SendProlongationRequest then AbortHello(c) else
    var (d, ok) := Send(c, PROLONG);
    if !ok then Fail(d) else
    var e := if d.lastWaiting == 0 then d.(lastWaiting := 66_000) else d;
    Arm(e, ProlongRequestReply, e.lastWaiting)
  }

  /** The handshake timer has fired. */
  function OnTimeout(c0: Conn, hub: Hub): Conn {
    var c := StopTimer(c0);
    match c.state
    case CmiClientWait => Fail(c)
    case CmiServerWait => Fail(c)
    case HelloReadyListen => AbortHello(c)
    case HelloPendingListen => if hub.waitAllowed then RequestProlongation(c) else PendingTimeout(c)
    case ProtServerListenProposal => AbortProtocol(c, Timedout)
    case ProtServerListenConfirm => AbortProtocol(c, Timedout)
    case ProtClientListenChoice => AbortProtocol(c, Timedout)
    case PinCheckListen => Fail(c)
    case AccessMethodsRequest => Fail(c)
    case _ => c
  }

  /** ApproveIfPending: announce readiness first, then validate, then accept. */
  function OnApprove(c: Conn, hub: Hub): Conn {
    if c.state != HelloPendingListen then c else
    var d := SendReady(StopTimer(Enter(c, HelloReadyInit)));
    if d.open && hub.paired && hub.waitAllowed then AcceptHello(d) else AbortHello(d)
  }

  /** AbortIfPending. */
  function OnAbort(c: Conn): Conn {
    if c.state != HelloPendingListen && c.state != HelloReadyListen then c
    else SendAborted(StopTimer(Enter(c, HelloAbort)))
  }

  /** ReportConnectionError: the data connection broke. */
  function OnConnectionError(c0: Conn): Conn {
    var c := c0.(open := false);
    if c.state == HelloReadyListen then CloseOnce(SetState(c, HelloRejected))
    else if c.state == HelloRemoteAbortDone || c.state == HelloAbort || c.state == HelloAbortDone then CloseOnce(c)
    else CloseOnce(SetState(c, Error))
  }

  /** CloseConnection, called by the hub or by the delayed close after an abort. */
  function OnClose(c: Conn, safe: bool): Conn {
    if c.shutdown then c
    else if safe && c.state == Complete then
      Send(StopTimer(c).(shutdown := true), CloseMessage(Announce)).0.(open := false)
    else CloseOnce(c)
  }

  datatype Kind =
    | Run | Receive(m: Message) | SpineData | Timeout | Approve | AbortByUser | ConnectionError | Close(safe: bool)

  /** An event, the hub's answers and the outcomes of the writes it will attempt. */
  datatype Event = Event(kind: Kind, hub: Hub, net: seq<bool>)

  /** HandleIncomingWebsocketMessage: a message is for the handshake or for SPINE. */
  function Incoming(m: Message): Kind {
    var arrived := W.Arrives(m);
    if arrived.Some? then Receive(arrived.value) else SpineData
  }

  predicate Enabled(c: Conn, e: Event) {
    match e.kind
    case Run => c.state == CmiInitStart
    case Timeout => c.state != CmiInitStart && c.timer.running
    case _ => c.state != CmiInitStart
  }

  function Step(c0: Conn, e: Event): Conn {
    var c := c0.(net := e.net);
    match e.kind
    case Run => OnRun(c)
    case Receive(m) => OnMessage(c, e.hub, m)
    case SpineData => c
    case Timeout => OnTimeout(c, e.hub)
    case Approve => OnApprove(c, e.hub)
    case AbortByUser => OnAbort(c)
    case ConnectionError => OnConnectionError(c)
    case Close(safe) => OnClose(c, safe)
  }

  /** The states handleState treats specially when the timer has fired. */
  predicate Waiting(s: State) {
    s in {CmiClientWait, CmiServerWait, HelloReadyListen, HelloPendingListen, ProtServerListenProposal,
          ProtServerListenConfirm, ProtClientListenChoice, PinCheckListen, AccessMethodsRequest}
  }

  /** The states an endpoint is in between two events. */
  predicate Resting(s: State) {
    Waiting(s) || s in {CmiInitStart, HelloAbortDone, HelloRemoteAbortDone, HelloRejected, Complete, Error}
  }

  lemma WaitingRests(c: Conn, hub: Hub, m: Option<Message>)
    requires Resting(c.state) && c.state != CmiInitStart
    ensures Resting(OnWaiting(c, hub, m).state) && OnWaiting(c, hub, m).state != CmiInitStart
  {
    hide Fail, AbortProtocol, AbortHello, SendAborted, SendReady, ChooseHello, AcceptHello, StartPin, RequestAccess,
         Finish, Write, Send, SetState;
  }

  lemma TimeoutRests(c: Conn, hub: Hub)
    requires Resting(c.state) && c.state != CmiInitStart
    ensures Resting(OnTimeout(c, hub).state) && OnTimeout(c, hub).state != CmiInitStart
  {
  }

  lemma StepRests(c: Conn, e: Event)
    requires Enabled(c, e) && Resting(c.state)
    ensures Resting(Step(c, e).state) && Step(c, e).state != CmiInitStart
  {
    hide Fail, AbortHello, SendAborted, SendReady, AcceptHello, SetState, Send, Write, OnWaiting, OnTimeout;
    var d := c.(net := e.net);
    match e.kind
    case Receive(m) => WaitingRests(d, e.hub, Some(m));
    case Timeout => TimeoutRests(d, e.hub);
    case _ =>
  }

  /** A missing message is no PIN state and no access methods message. */
  lemma NothingReceived(c: Conn)
    ensures OnPin(c, None) == Fail(c) && OnAccess(c, None) == Fail(c)
  {
  }

  /** NewConnectionHandler. */
  predicate Initial(c: Conn) {
    && c.state == CmiInitStart && c.path == [CmiInitStart] && c.sent == []
    && c.open && !c.shutdown && !c.reader && !c.timer.running && c.lastWaiting == 0
  }

  /** A run of one endpoint against an arbitrary peer, user and network. */
  predicate EnabledRun(c: Conn, es: seq<Event>)
    decreases |es|
  {
    es == [] || (Enabled(c, es[0]) && EnabledRun(Step(c, es[0]), es[1..]))
  }

  function RunAll(c: Conn, es: seq<Event>): Conn
    decreases |es|
  {
    if es == [] then c else RunAll(Step(c, es[0]), es[1..])
  }
}
