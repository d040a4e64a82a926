/**
 The endpoint as the object it is (ship/connection.go): handlers that update its fields and call one
 another through handleState. Every handler is proved to end up where the flat functions of
 ShipEndpoint say, so what is proved about those functions holds for this code.
 */
module ShipConnectionClass {
  import opened Basics
  import opened ShipModel
  import opened ShipEndpoint
  import W = ShipWire

  /** Nested state changes only ever go down this order, which is why handleState terminates. */
  function Rank(s: State): nat {
    match s
    case CmiInitStart => 30
    case CmiClientSend => 29 case CmiClientWait => 28 case CmiClientEvaluate => 27
    case CmiServerWait => 28 case CmiServerEvaluate => 27
    case Hello => 26
    case HelloPendingInit => 25 case HelloPendingListen => 24
    case HelloReadyInit => 23 case HelloReadyListen => 22
    case HelloOk => 21
    case ProtServerInit => 20 case ProtClientInit => 20
    case ProtServerListenProposal => 19 case ProtServerListenConfirm => 18 case ProtServerOk => 17
    case ProtClientListenChoice => 18 case ProtClientOk => 17
    case PinCheckInit => 16 case PinCheckListen => 15 case PinCheckOk => 14
    case AccessMethodsRequest => 13 case Approved => 12 case Complete => 11
    case HelloAbort => 5 case HelloAbortDone => 4 case HelloRemoteAbortDone => 4 case HelloRejected => 4
    case Error => 0
  }

  /** handleState in any state without a timeout, including those a handshake only passes through. */
  function Settle(c: Conn, hub: Hub, m: Option<Message>): Conn {
    match c.state
    case CmiInitStart => OnRun(c)
    case Hello => ChooseHello(c, hub)
    case HelloReadyInit => SendReady(c)
    case HelloPendingInit => SendPending(c, hub)
    case HelloOk => StartProtocol(c)
    case HelloAbort => SendAborted(c)
    case ProtClientOk => StartPin(c)
    case ProtServerOk => StartPin(c)
    case PinCheckInit => SendPin(c)
    case PinCheckOk => RequestAccess(c)
    case _ => OnWaiting(c, hub, m)
  }

  lemma RestingSettles(c: Conn, hub: Hub, m: Message)
    requires c.state != CmiInitStart && Resting(c.state) && !m.CloseMessage?
    ensures Settle(c, hub, Some(m)) == OnMessage(c, hub, m)
  {
    hide OnWaiting, OnRun, ChooseHello, SendReady, SendPending, StartProtocol, SendAborted, StartPin, SendPin,
         RequestAccess, Send;
  }

  lemma HelloSettles(c: Conn, hub: Hub)
    ensures Settle(SetState(c, HelloAbort), hub, None) == AbortHello(c)
    ensures Settle(SetState(c, HelloOk), hub, None) == AcceptHello(c)
    ensures c.state == HelloReadyInit ==> Settle(c, hub, None) == SendReady(c)
  {
    hide OnWaiting, OnRun, ChooseHello, SendReady, SendPending, StartProtocol, SendAborted, StartPin, SendPin,
         RequestAccess, SetState;
  }

  class ShipConnection {
    const role: Role
    const localShipId: string
    var remoteShipId: string
    var smeState: State
    var handshakeTimer: Timer
    var lastReceivedWaitingValue: int
    var shutdownDone: bool
    var dataReaderSet: bool

    // The data connection: whether it is open, the outcomes of the coming writes, what was written.
    var dataOpen: bool
    var outcomes: seq<bool>
    var written: seq<Message>

    ghost var path: seq<State>

    ghost function View(): Conn
      reads this
    {
      Conn(role, localShipId, remoteShipId, smeState,
           handshakeTimer, lastReceivedWaitingValue, dataOpen, shutdownDone, dataReaderSet, outcomes, path, written)
    }

    constructor (role: Role, localShipId: string, remoteShipId: string)
      ensures Initial(View())
      ensures this.role == role && this.localShipId == localShipId && this.remoteShipId == remoteShipId
    {
      this.role, this.localShipId, this.remoteShipId := role, localShipId, remoteShipId;
      smeState := CmiInitStart;
      handshakeTimer := Timer(false, WaitForReady, 0);
      lastReceivedWaitingValue := 0;
      shutdownDone, dataReaderSet, dataOpen := false, false, true;
      outcomes, written := [], [];
      path := [CmiInitStart];
    }

    // -------------------------------------------------------------- effects

    method SetHandshakeTimer(kind: TimerKind, duration: int)
      modifies this
      ensures View() == Arm(old(View()), kind, duration)
    {
      handshakeTimer := Timer(true, kind, duration);
    }

    method StopTimerSafe()
      modifies this
      ensures View() == StopTimer(old(View()))
    {
      handshakeTimer := handshakeTimer.(running := false);
    }

    method AssignState(newState: State)
      modifies this
      ensures View() == Enter(old(View()), newState) && smeState == newState
    {
      if smeState != newState { path := path + [newState]; }
      smeState := newState;
    }

    method SetSmeState(newState: State)
      modifies this
      ensures View() == SetState(old(View()), newState) && smeState == newState
    {
      AssignState(newState);
      match newState {
        case HelloReadyInit => SetHandshakeTimer(WaitForReady, HELLO_INIT);
        case HelloPendingInit => SetHandshakeTimer(WaitForReady, HELLO_INIT);
        case HelloOk => StopTimerSafe();
        case HelloAbort => StopTimerSafe();
        case HelloAbortDone => StopTimerSafe();
        case HelloRemoteAbortDone => StopTimerSafe();
        case HelloRejected => StopTimerSafe();
        case ProtClientListenChoice => SetHandshakeTimer(WaitForReady, CMI_TIMEOUT);
        case ProtClientOk => StopTimerSafe();
        case _ =>
      }
    }

    method WriteMessage(m: Message) returns (ok: bool)
      modifies this
      ensures (View(), ok) == Write(old(View()), m)
    {
      if !dataOpen { return false; }
      ok := outcomes == [] || outcomes[0];
      if outcomes != [] { outcomes := outcomes[1..]; }
      if ok { written := written + [m]; }
    }

    method CloseConnectionOnce()
      modifies this
      ensures View() == CloseOnce(old(View()))
    {
      if !shutdownDone {
        StopTimerSafe();
        shutdownDone := true;
        dataOpen := false;
      }
    }

    method SendShipModel(m: Message) returns (ok: bool)
      modifies this
      ensures (View(), ok) == Send(old(View()), m)
    {
      if !dataOpen {
        CloseConnectionOnce();
        return false;
      }
      ok := WriteMessage(m);
    }

    method EndHandshakeWithError()
      modifies this
      ensures View() == Fail(old(View()))
    {
      StopTimerSafe();
      SetSmeState(Error);
      CloseConnectionOnce();
    }

    method AbortProtocolHandshake(reason: AbortReason)
      modifies this
      ensures View() == AbortProtocol(old(View()), reason)
    {
      StopTimerSafe();
      var _ := SendShipModel(HandshakeErrorMessage(reason));
      SetSmeState(Error);
      CloseConnectionOnce();
    }

    // -------------------------------------------------------------- dispatch

    static predicate HelloOrEarlier(s: State) {
      match s
      case CmiInitStart => true
      case CmiClientWait => true
      case CmiServerWait => true
      case Hello => true
      case HelloReadyInit => true
      case HelloReadyListen => true
      case HelloPendingInit => true
      case HelloPendingListen => true
      case HelloOk => true
      case HelloAbort => true
      case _ => false
    }

    static function Present(m: Option<Message>): nat {
      if m.Some? then 1 else 0
    }

    method HandleState(hub: Hub, timeout: bool, m: Option<Message>)
      requires timeout ==> m == None && !handshakeTimer.running && Waiting(smeState)
      modifies this
      ensures timeout ==> View() == OnTimeout(old(View()), hub)
      ensures !timeout ==> View() == Settle(old(View()), hub, m)
      decreases Rank(smeState), Present(m), 3
    {
      hide Fail, SendAborted, SendReady, SendPending, StartProtocol, SendPin, RequestAccess, SetState, CloseOnce, Write, Send,
           OnClientCmi, OnServerCmi, OnReadyListen, OnPendingListen, OnProposal, OnConfirm, OnChoice, OnPin, OnAccess, OnRun,
           AbortProtocol, Finish, PendingTimeout, RequestProlongation, ChooseHello;
      assert View().state == smeState && (timeout ==> StopTimer(View()) == View());
      hide View, StopTimer;
      match smeState {
        case Error =>
        case CmiInitStart => CmiInit();
        case CmiClientWait =>
          if timeout { EndHandshakeWithError(); } else { CmiClient(hub, m); }
        case CmiServerWait =>
          if timeout { EndHandshakeWithError(); } else { CmiServer(hub, m); }
        case Hello => ChooseHelloState(hub, m);
        case HelloReadyInit => HelloInit(hub);
        case HelloReadyListen => ReadyListen(hub, timeout, m);
        case HelloPendingInit => PendingInit(hub);
        case HelloPendingListen => PendingListen(hub, timeout, m);
        case HelloOk => ProtocolInit();
        case HelloAbort => HandleAbort(hub);
        case _ => HandleLaterState(hub, timeout, m);
      }
    }

    /** The part of handleState that chooses between ready and pending. */
    method ChooseHelloState(hub: Hub, m: Option<Message>)
      requires smeState == Hello
      modifies this
      ensures View() == ChooseHello(old(View()), hub)
      decreases Rank(smeState), Present(m), 2
    {
      hide SetState, SendReady, SendPending, OnWaiting;
      assert View().role == role && View().state == smeState;
      hide View;
      if hub.paired || hub.autoAccept || role == Client {
        SetSmeState(HelloReadyInit);
      } else {
        SetSmeState(HelloPendingInit);
      }
      HandleState(hub, false, m);
    }

    /** The part of handleState that covers the states after hello. */
    method HandleLaterState(hub: Hub, timeout: bool, m: Option<Message>)
      requires timeout ==> m == None && !handshakeTimer.running && Waiting(smeState)
      requires !HelloOrEarlier(smeState)
      modifies this
      ensures timeout ==> View() == OnTimeout(old(View()), hub)
      ensures !timeout ==> View() == Settle(old(View()), hub, m)
      decreases Rank(smeState), Present(m), 2
    {
      hide Fail, SendAborted, SendReady, SendPending, StartProtocol, SendPin, RequestAccess, SetState, CloseOnce, Write, Send,
           OnProposal, OnConfirm, OnChoice, OnPin, OnAccess, AbortProtocol;
      NothingReceived(View());
      assert View().state == smeState && (timeout ==> StopTimer(View()) == View());
      hide View, StopTimer;
      match smeState {
        case ProtServerListenProposal =>
          if timeout { AbortProtocolHandshake(Timedout); } else { ServerListenProposal(m); }
        case ProtServerListenConfirm =>
          if timeout { AbortProtocolHandshake(Timedout); } else { ServerListenConfirm(hub, m); }
        case ProtClientListenChoice =>
          if timeout {
            AbortProtocolHandshake(Timedout);
          } else {
            StopTimerSafe();
            ClientListenChoice(hub, m);
          }
        case ProtClientOk => SetAndHandleState(hub, PinCheckInit);
        case ProtServerOk => SetAndHandleState(hub, PinCheckInit);
        case PinCheckInit => PinInit();
        case PinCheckListen => PinListen(hub, m);
        case PinCheckOk => AccessInit();
        case AccessMethodsRequest => AccessRequest(m);
        case _ =>
      }
    }

    method SetAndHandleState(hub: Hub, s: State)
      modifies this
      ensures View() == Settle(SetState(old(View()), s), hub, None)
      decreases Rank(s), 1, 3
    {
      SetSmeState(s);
      HandleState(hub, false, None);
    }

    // -------------------------------------------------------------- connection mode initialisation

    method CmiInit()
      requires smeState == CmiInitStart
      modifies this
      ensures View() == OnRun(old(View()))
    {
      hide Fail, CloseOnce, Write, SetState;
      assert View().state == smeState && View().role == role;
      hide View;
      if role == Client {
        SetSmeState(CmiClientSend);
        var ok := WriteMessage(CmiMessage);
        if !ok {
          EndHandshakeWithError();
          return;
        }
        SetSmeState(CmiClientWait);
      } else {
        SetSmeState(CmiServerWait);
      }
      SetHandshakeTimer(WaitForReady, CMI_TIMEOUT);
    }

    method RejectInvalidCmi()
      modifies this
      ensures View() == RejectCmi(old(View()))
    {
      if role == Server { var _ := WriteMessage(CmiMessage); }
    }

    method CmiClient(hub: Hub, m: Option<Message>)
      requires smeState == CmiClientWait
      modifies this
      ensures View() == OnClientCmi(old(View()), hub, m)
      decreases Rank(smeState), Present(m), 1
    {
      hide Fail, SetState, CloseOnce, Write, ChooseHello, OnWaiting;
      assert View().state == smeState;
      hide View;
      SetSmeState(CmiClientEvaluate);
      if !IsCmi(m) {
        RejectInvalidCmi();
        EndHandshakeWithError();
        return;
      }
      SetAndHandleState(hub, Hello);
    }

    method CmiServer(hub: Hub, m: Option<Message>)
      requires smeState == CmiServerWait
      modifies this
      ensures View() == OnServerCmi(old(View()), hub, m)
      decreases Rank(smeState), Present(m), 1
    {
      hide Fail, SetState, CloseOnce, Write, ChooseHello, OnWaiting;
      assert View().state == smeState;
      hide View;
      SetSmeState(CmiServerEvaluate);
      if !IsCmi(m) {
        RejectInvalidCmi();
        EndHandshakeWithError();
        return;
      }
      var ok := WriteMessage(CmiMessage);
      if !ok {
        EndHandshakeWithError();
        return;
      }
      SetAndHandleState(hub, Hello);
    }

    // -------------------------------------------------------------- hello

    method HelloSend(phase: Phase, waitingDuration: int, prolongation: bool) returns (ok: bool)
      modifies this
      ensures (View(), ok) == Send(old(View()), HelloText(phase, waitingDuration, prolongation))
    {
      var waiting: Option<nat> := None;
      if waitingDuration > 0 { waiting := Some(waitingDuration / MILLISECOND); }
      var request: Option<bool> := None;
      if prolongation { request := Some(prolongation); }
      ok := SendShipModel(HelloMessage(HelloBody(phase, waiting, request)));
    }

    method HelloInit(hub: Hub)
      requires smeState == HelloReadyInit
      modifies this
      ensures View() == SendReady(old(View()))
      decreases Rank(smeState), 0, 1
    {
      hide Fail, SetState, CloseOnce, Write, Send, SendAborted;
      assert View().state == smeState;
      hide View;
      var ok := HelloSend(Ready, HELLO_INIT, false);
      if !ok {
        SetAndHandleState(hub, HelloAbort);
        return;
      }
      SetSmeState(HelloReadyListen);
    }

    method ReadyListen(hub: Hub, timeout: bool, m: Option<Message>)
      requires smeState == HelloReadyListen
      requires timeout ==> !handshakeTimer.running
      modifies this
      ensures timeout ==> View() == OnTimeout(old(View()), hub)
      ensures !timeout ==> View() == OnReadyListen(old(View()), hub, m)
      decreases Rank(smeState), Present(m), 1
    {
      hide Fail, SetState, CloseOnce, Write, Send, AsHello, SendAborted, StartProtocol, AbortProtocol;
      assert View().state == smeState;
      hide View;
      if timeout {
        SetAndHandleState(hub, HelloAbort);
        return;
      }
      var parsed := AsHello(m);
      if parsed == None {
        SetAndHandleState(hub, HelloAbort);
        return;
      }
      var hello := parsed.value;
      match hello.phase {
        case Ready =>
          SetSmeState(HelloOk);
        case Pending =>
          if hello.prolongation == None { return; }
          if hello.prolongation.value {
            if hub.waitAllowed { SetHandshakeTimer(WaitForReady, HELLO_INIT); }
            var ok := HelloSend(Ready, HELLO_INIT, false);
            if !ok { EndHandshakeWithError(); }
            return;
          }
          return;
        case Aborted =>
          SetAndHandleState(hub, HelloRemoteAbortDone);
          return;
        case OtherPhase =>
          SetAndHandleState(hub, HelloAbort);
          return;
      }
      HandleState(hub, false, None);
    }

    method HandleAbort(hub: Hub)
      requires smeState == HelloAbort
      modifies this
      ensures View() == SendAborted(old(View()))
      decreases Rank(smeState), 0, 1
    {
      hide Fail, SetState, CloseOnce, Write, Send;
      assert View().state == smeState;
      hide View;
      StopTimerSafe();
      var ok := HelloSend(Aborted, 0, false);
      if !ok {
        EndHandshakeWithError();
        return;
      }
      SetAndHandleState(hub, HelloAbortDone);
    }

    method PendingInit(hub: Hub)
      requires smeState == HelloPendingInit
      modifies this
      ensures View() == SendPending(old(View()), hub)
      decreases Rank(smeState), 0, 1
    {
      hide Fail, SetState, CloseOnce, Write, Send, SendAborted;
      assert View().state == smeState;
      hide View;
      var ok := HelloSend(Pending, HELLO_INIT, false);
      if !ok {
        EndHandshakeWithError();
        return;
      }
      SetSmeState(HelloPendingListen);
      if !hub.waitAllowed { SetAndHandleState(hub, HelloAbort); }
    }

    method PendingListen(hub: Hub, timeout: bool, m: Option<Message>)
      requires smeState == HelloPendingListen
      requires timeout ==> !handshakeTimer.running
      modifies this
      ensures timeout ==> View() == OnTimeout(old(View()), hub)
      ensures !timeout ==> View() == OnPendingListen(old(View()), m)
      decreases Rank(smeState), Present(m), 1
    {
      hide Fail, SetState, CloseOnce, Write, Send, SendAborted, PendingTimeout, RequestProlongation, WaitingDuration;
      if timeout {
        if !hub.waitAllowed { HandlePendingTimeout(hub); } else { ProlongationRequest(); }
        return;
      }
      var parsed := AsHello(m);
      if parsed == None {
        SetAndHandleState(hub, HelloAbort);
        return;
      }
      var hello := parsed.value;
      match hello.phase {
        case Ready =>
          if hello.waiting == None {
            SetAndHandleState(hub, HelloAbort);
            return;
          }
          StopTimerSafe();
          var newDuration := WaitingDuration(hello.waiting.value);
          var duration := PROLONG_THRESHOLD;
          if newDuration >= duration {
            duration := newDuration - duration;
            if newDuration >= PROLONG_MIN {
              SetHandshakeTimer(SendProlongationRequest, duration);
              return;
            }
          }
          if newDuration < PROLONG_MIN { SetAndHandleState(hub, HelloAbort); }
        case Pending =>
          PeerPending(hub, hello);
          return;
        case Aborted =>
          SetAndHandleState(hub, HelloRemoteAbortDone);
          return;
        case OtherPhase =>
          SetAndHandleState(hub, HelloAbort);
          return;
      }
      HandleState(hub, false, None);
    }

    /** The peer is pending as well: it announces its waiting time, or asks for more. */
    method PeerPending(hub: Hub, hello: HelloBody)
      requires smeState == HelloPendingListen
      modifies this
      ensures View() == OnPeerPending(old(View()), hello)
      decreases Rank(smeState), 0, 0
    {
      hide Fail, SetState, CloseOnce, Write, Send, SendAborted, WaitingDuration;
      if hello.waiting.Some? && hello.prolongation == None {
        StopTimerSafe();
        var newDuration := WaitingDuration(hello.waiting.value);
        lastReceivedWaitingValue := newDuration;
        var duration := PROLONG_THRESHOLD;
        if newDuration >= duration {
          duration := newDuration - duration;
          if newDuration >= PROLONG_MIN {
            SetHandshakeTimer(SendProlongationRequest, duration);
            return;
          }
        }
        if newDuration < PROLONG_MIN { SetAndHandleState(hub, HelloAbort); }
        return;
      }
      if hello.waiting == None && hello.prolongation.Some? && hello.prolongation.value {
        var ok := HelloSend(Pending, HELLO_INIT, false);
        if !ok { EndHandshakeWithError(); }
        return;
      }
      SetAndHandleState(hub, HelloAbort);
    }

    method ProlongationRequest()
      modifies this
      ensures View() == RequestProlongation(old(View()))
    {
      hide Fail, SetState, CloseOnce, Write, Send;
      var ok := HelloSend(Pending, 0, true);
      if !ok {
        EndHandshakeWithError();
        return;
      }
      var timeout := lastReceivedWaitingValue;
      if timeout == 0 { timeout := HELLO_INIT; }
      SetHandshakeTimer(ProlongRequestReply, timeout);
    }

    method HandlePendingTimeout(hub: Hub)
      requires smeState == HelloPendingListen
      modifies this
      ensures View() == PendingTimeout(old(View()))
      decreases Rank(smeState), 0, 0
    {
      hide Fail, SetState, CloseOnce, Write, Send, SendAborted;
      if handshakeTimer.kind != SendProlongationRequest {
        SetAndHandleState(hub, HelloAbort);
        return;
      }
      var ok := HelloSend(Pending, 0, true);
      if !ok {
        EndHandshakeWithError();
        return;
      }
      if lastReceivedWaitingValue == 0 { lastReceivedWaitingValue := 66_000; }
      SetHandshakeTimer(ProlongRequestReply, lastReceivedWaitingValue);
    }

    // -------------------------------------------------------------- protocol handshake

    method ProtocolInit()
      requires smeState == HelloOk
      modifies this
      ensures View() == StartProtocol(old(View()))
    {
      hide Fail, CloseOnce, Write, Send;
      assert View().state == smeState && View().role == role;
      hide View;
      if role == Server {
        SetSmeState(ProtServerInit);
        SetHandshakeTimer(WaitForReady, CMI_TIMEOUT);
        SetSmeState(ProtServerListenProposal);
      } else {
        SetSmeState(ProtClientInit);
        SetSmeState(ProtClientInit);
        var ok := SendShipModel(ANNOUNCE);
        if !ok {
          EndHandshakeWithError();
          return;
        }
        SetSmeState(ProtClientListenChoice);
      }
    }

    method ServerListenProposal(m: Option<Message>)
      requires smeState == ProtServerListenProposal
      modifies this
      ensures View() == OnProposal(old(View()), m)
    {
      hide Fail, SetState, CloseOnce, Write, Send, AsHandshake, AbortProtocol;
      assert View().state == smeState;
      hide View;
      var handshake := AsHandshake(m);
      if handshake == None {
        AbortProtocolHandshake(UnexpectedMessage);
        return;
      }
      if handshake.value.kind != AnnounceMax {
        AbortProtocolHandshake(UnexpectedMessage);
        return;
      }
      StopTimerSafe();
      var ok := SendShipModel(SELECT);
      if !ok {
        EndHandshakeWithError();
        return;
      }
      SetHandshakeTimer(WaitForReady, CMI_TIMEOUT);
      SetSmeState(ProtServerListenConfirm);
    }

    method ServerListenConfirm(hub: Hub, m: Option<Message>)
      requires smeState == ProtServerListenConfirm
      modifies this
      ensures View() == OnConfirm(old(View()), m)
      decreases Rank(smeState), Present(m), 1
    {
      hide Fail, SetState, CloseOnce, Write, Send, AsHandshake, AbortProtocol, StartPin, SendPin;
      assert View().state == smeState;
      hide View;
      var handshake := AsHandshake(m);
      if handshake == None {
        AbortProtocolHandshake(UnexpectedMessage);
        return;
      }
      if handshake.value.kind != Select {
        AbortProtocolHandshake(SelectionMismatch);
        return;
      }
      StopTimerSafe();
      SetAndHandleState(hub, ProtServerOk);
    }

    method ClientListenChoice(hub: Hub, m: Option<Message>)
      requires smeState == ProtClientListenChoice
      modifies this
      ensures View() == OnChoice(old(View()), m)
      decreases Rank(smeState), Present(m), 1
    {
      hide Fail, SetState, CloseOnce, Write, Send, AsHandshake, AbortProtocol, StartPin, SendPin;
      assert View().state == smeState;
      hide View;
      var parsed := AsHandshake(m);
      if parsed == None {
        AbortProtocolHandshake(UnexpectedMessage);
        return;
      }
      var handshake := parsed.value;
      if handshake.kind != Select {
        AbortProtocolHandshake(UnexpectedMessage);
        return;
      }
      var abort := false;
      if handshake.major != 1 { abort := true; }
      if handshake.minor != 0 { abort := true; }
      if |handshake.formats| == 0 { abort := true; }
      if |handshake.formats| != 1 { abort := true; }
      if |handshake.formats| > 0 && handshake.formats[0] != Utf8 { abort := true; }
      if abort {
        AbortProtocolHandshake(SelectionMismatch);
        return;
      }
      assert handshake.formats == [Utf8];
      StopTimerSafe();
      var ok := SendShipModel(SELECT);
      if !ok {
        EndHandshakeWithError();
        return;
      }
      SetAndHandleState(hub, ProtClientOk);
    }

    // -------------------------------------------------------------- pin and access methods

    method PinInit()
      requires smeState == PinCheckInit
      modifies this
      ensures View() == SendPin(old(View()))
    {
      hide Fail, CloseOnce, Write, Send;
      assert View().state == smeState;
      hide View;
      SetSmeState(PinCheckInit);
      var ok := SendShipModel(PIN_NONE);
      if !ok {
        EndHandshakeWithError();
        return;
      }
      SetSmeState(PinCheckListen);
    }

    method PinListen(hub: Hub, m: Option<Message>)
      requires smeState == PinCheckListen
      modifies this
      ensures View() == OnPin(old(View()), m)
      decreases Rank(smeState), Present(m), 1
    {
      hide Fail, SetState, CloseOnce, Write, Send, AsPin, RequestAccess;
      assert View().state == smeState;
      hide View;
      var pin := AsPin(m);
      if pin == None {
        EndHandshakeWithError();
        return;
      }
      match pin.value {
        case PinNone => SetAndHandleState(hub, PinCheckOk);
        case PinRequired => EndHandshakeWithError();
        case PinOptional => EndHandshakeWithError();
        case PinOk => EndHandshakeWithError();
        case OtherPin => EndHandshakeWithError();
      }
    }

    method AccessInit()
      modifies this
      ensures View() == RequestAccess(old(View()))
    {
      hide Fail, SetState, CloseOnce, Write, Send;
      assert View().state == smeState;
      hide View;
      var ok := SendShipModel(AccessRequestMessage);
      if !ok {
        EndHandshakeWithError();
        return;
      }
      SetHandshakeTimer(WaitForReady, CMI_TIMEOUT);
      SetSmeState(AccessMethodsRequest);
    }

    /** handleAccessMethodsResponse: a SHIP ID that is already known must match. */
    method AccessMethodsResponse(id: Option<string>) returns (ok: bool)
      modifies this
      ensures ok <==> id.Some? && (old(remoteShipId) == "" || old(remoteShipId) == id.value)
      ensures View() == if ok then old(View()).(remoteId := id.value) else old(View())
    {
      if id == None { return false; }
      var remoteId := id.value;
      if |remoteShipId| > 0 && remoteShipId != remoteId { return false; }
      if |remoteShipId| == 0 { remoteShipId := remoteId; }
      ok := true;
    }

    method AccessRequest(m: Option<Message>)
      requires smeState == AccessMethodsRequest
      modifies this
      ensures View() == OnAccess(old(View()), m)
    {
      hide Fail, SetState, CloseOnce, Write, Send, AsAccess;
      assert View().localId == localShipId && View().remoteId == remoteShipId;
      hide View;
      match AsAccess(m) {
        case BadAccess => EndHandshakeWithError();
        case Request =>
          var ok := SendShipModel(AccessMethodsMessage(Some(localShipId)));
          if !ok { EndHandshakeWithError(); }
        case Methods(id) =>
          var ok := AccessMethodsResponse(id);
          if !ok {
            EndHandshakeWithError();
            return;
          }
          SetSmeState(Approved);
          ApproveHandshake();
      }
    }

    method ApproveHandshake()
      modifies this
      ensures View() == SetState(StopTimer(old(View()).(reader := true)), Complete)
    {
      dataReaderSet := true;
      StopTimerSafe();
      SetSmeState(Complete);
    }

    // -------------------------------------------------------------- the events

    method HandleShipMessage(hub: Hub, m: Message)
      requires smeState != CmiInitStart && Resting(smeState)
      modifies this
      ensures View() == OnMessage(old(View()), hub, m)
    {
      hide SetState, CloseOnce, Write, Send, OnWaiting, Settle;
      if m.CloseMessage? {
        if m.closePhase == Announce {
          var _ := SendShipModel(CloseMessage(Confirm));
        }
        if m.closePhase != OtherClose { dataOpen := false; }
      } else {
        RestingSettles(View(), hub, m);
        hide OnMessage, View;
        HandleState(hub, false, Some(m));
      }
    }

    /** What was written as m comes in: the handshake gets it as it arrives, if it is not taken for SPINE data. */
    method HandleIncomingWebsocketMessage(hub: Hub, m: Message)
      requires smeState != CmiInitStart && Resting(smeState)
      modifies this
      ensures View() == if Incoming(m).Receive? then OnMessage(old(View()), hub, Incoming(m).m) else old(View())
    {
      hide OnMessage, W.Arrives;
      var arrived := W.Arrives(m);
      if arrived == None { return; }
      HandleShipMessage(hub, arrived.value);
    }

    method TimerFired(hub: Hub)
      requires Resting(smeState) && smeState != CmiInitStart && handshakeTimer.running
      modifies this
      ensures View() == OnTimeout(old(View()), hub)
    {
      hide Fail, SetState, CloseOnce, Write, Send, AbortHello, AbortProtocol, PendingTimeout, RequestProlongation, Settle;
      handshakeTimer := handshakeTimer.(running := false);
      if Waiting(smeState) { HandleState(hub, true, None); }
    }

    method IsDataConnectionClosed() returns (closed: bool)
      ensures closed == !View().open
    {
      closed := !dataOpen;
    }

    method ApproveIfPending(hub: Hub) returns (approved: bool)
      modifies this
      ensures View() == OnApprove(old(View()), hub)
    {
      hide SetState, Send, SendReady, AbortHello, AcceptHello, Settle, Enter, Waiting, Rank;
      assert View().state == smeState;
      hide View;
      if smeState != HelloPendingListen { return false; }
      AssignState(HelloReadyInit);
      StopTimerSafe();
      HelloSettles(View(), hub);
      HandleState(hub, false, None);
      var closed := IsDataConnectionClosed();
      HelloSettles(View(), hub);
      if !(!closed && hub.paired && hub.waitAllowed) {
        SetAndHandleState(hub, HelloAbort);
        return false;
      }
      SetAndHandleState(hub, HelloOk);
      approved := true;
    }

    method AbortIfPending(hub: Hub) returns (aborted: bool)
      modifies this
      ensures View() == OnAbort(old(View()))
    {
      hide Fail, SetState, CloseOnce, Write, Send, SendAborted, OnWaiting;
      if smeState != HelloPendingListen && smeState != HelloReadyListen { return false; }
      AssignState(HelloAbort);
      StopTimerSafe();
      HandleState(hub, false, None);
      aborted := true;
    }

    method ReportConnectionError()
      modifies this
      ensures View() == OnConnectionError(old(View()))
    {
      hide SetState, CloseOnce, Enter;
      dataOpen := false;
      assert View() == old(View()).(open := false) && View().state == smeState;
      hide View;
      if smeState == HelloReadyListen {
        SetSmeState(HelloRejected);
        CloseConnectionOnce();
        return;
      }
      if smeState == HelloRemoteAbortDone {
        CloseConnectionOnce();
        return;
      }
      if smeState == HelloAbort || smeState == HelloAbortDone {
        CloseConnectionOnce();
        return;
      }
      SetSmeState(Error);
      CloseConnectionOnce();
    }

    method CloseConnection(safe: bool)
      modifies this
      ensures View() == OnClose(old(View()), safe)
    {
      hide Write, Send;
      if shutdownDone { return; }
      shutdownDone := true;
      StopTimerSafe();
      if safe && smeState == Complete {
        var _ := SendShipModel(CloseMessage(Announce));
      }
      dataOpen := false;
    }

    /** Any event, as the environment delivers it. */
    method Handle(e: Event)
      requires Enabled(View(), e) && Resting(smeState)
      modifies this
      ensures View() == Step(old(View()), e)
      ensures Resting(smeState)
    {
      hide OnRun, OnMessage, OnTimeout, OnApprove, OnAbort, OnConnectionError, OnClose;
      StepRests(View(), e);
      var hub := e.hub;
      outcomes := e.net;
      match e.kind {
        case Run => HandleState(hub, false, None);
        case Receive(m) => HandleShipMessage(hub, m);
        case SpineData =>
        case Timeout => TimerFired(hub);
        case Approve => var _ := ApproveIfPending(hub);
        case AbortByUser => var _ := AbortIfPending(hub);
        case ConnectionError => ReportConnectionError();
        case Close(safe) => CloseConnection(safe);
      }
    }
  }
}
