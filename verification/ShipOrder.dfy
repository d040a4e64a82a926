/**
 One endpoint against an arbitrary peer, user, hub and network: which states can follow which, what
 every completed handshake has passed through, and what admits an untrusted peer.
 */
module ShipOrder {
  import opened Basics
  import opened ShipModel
  import opened ShipEndpoint

  /** Every change of state that a steady network allows. */
  predicate Edge(role: Role, a: State, b: State) {
    match b
    case CmiInitStart => false
    case CmiClientSend => role == Client && a == CmiInitStart
    case CmiClientWait => a == CmiClientSend
    case CmiClientEvaluate => a == CmiClientWait
    case CmiServerWait => role == Server && a == CmiInitStart
    case CmiServerEvaluate => a == CmiServerWait
    case Hello => a == CmiClientEvaluate || a == CmiServerEvaluate
    case HelloReadyInit => a == Hello || a == HelloPendingListen
    case HelloReadyListen => a == HelloReadyInit
    case HelloPendingInit => a == Hello && role == Server
    case HelloPendingListen => a == HelloPendingInit
    case HelloOk => a == HelloReadyListen
    case ProtServerInit => role == Server && a == HelloOk
    case ProtServerListenProposal => a == ProtServerInit
    case ProtServerListenConfirm => a == ProtServerListenProposal
    case ProtServerOk => a == ProtServerListenConfirm
    case ProtClientInit => role == Client && a == HelloOk
    case ProtClientListenChoice => a == ProtClientInit
    case ProtClientOk => a == ProtClientListenChoice
    case PinCheckInit => a == ProtServerOk || a == ProtClientOk
    case PinCheckListen => a == PinCheckInit
    case PinCheckOk => a == PinCheckListen
    case AccessMethodsRequest => a == PinCheckOk
    case Approved => a == AccessMethodsRequest
    case Complete => a == Approved
    case HelloAbort => a == HelloReadyInit || a == HelloReadyListen || a == HelloPendingListen
                       || a == HelloAbortDone || a == Error
    case HelloAbortDone => a == HelloAbort
    case HelloRemoteAbortDone => a == HelloReadyListen || a == HelloPendingListen
    case HelloRejected => a == HelloReadyListen
    case Error => true
  }

  predicate Dead(s: State) {
    s == Error || s == HelloAbort || s == HelloAbortDone || s == HelloRemoteAbortDone || s == HelloRejected
  }

  predicate Walk(role: Role, p: seq<State>) {
    forall i | 0 < i < |p| :: Edge(role, p[i - 1], p[i])
  }

  // ---------------------------------------------------------------- the way to completion

  function ClientStage(k: nat): State
    requires k < 17
  {
    match k
    case 0 => CmiInitStart
    case 1 => CmiClientSend
    case 2 => CmiClientWait
    case 3 => CmiClientEvaluate
    case 4 => Hello
    case 5 => HelloReadyInit
    case 6 => HelloReadyListen
    case 7 => HelloOk
    case 8 => ProtClientInit
    case 9 => ProtClientListenChoice
    case 10 => ProtClientOk
    case 11 => PinCheckInit
    case 12 => PinCheckListen
    case 13 => PinCheckOk
    case 14 => AccessMethodsRequest
    case 15 => Approved
    case 16 => Complete
  }

  function ServerStage(k: nat): State
    requires k < 19
  {
    match k
    case 0 => CmiInitStart
    case 1 => CmiServerWait
    case 2 => CmiServerEvaluate
    case 3 => Hello
    case 4 => HelloPendingInit
    case 5 => HelloPendingListen
    case 6 => HelloReadyInit
    case 7 => HelloReadyListen
    case 8 => HelloOk
    case 9 => ProtServerInit
    case 10 => ProtServerListenProposal
    case 11 => ProtServerListenConfirm
    case 12 => ProtServerOk
    case 13 => PinCheckInit
    case 14 => PinCheckListen
    case 15 => PinCheckOk
    case 16 => AccessMethodsRequest
    case 17 => Approved
    case 18 => Complete
  }

  /** The states of a handshake that succeeds; only a server may first have waited for its user. */
  function Stage(role: Role, waited: bool, k: nat): State
    requires k < RouteLength(role, waited)
  {
    if role == Client then ClientStage(k) else if waited || k < 4 then ServerStage(k) else ServerStage(k + 2)
  }

  function RouteLength(role: Role, waited: bool): nat {
    if role == Client || !waited then 17 else 19
  }

  function Route(role: Role, waited: bool): seq<State> {
    seq(RouteLength(role, waited), k requires 0 <= k < RouteLength(role, waited) => Stage(role, waited, k))
  }

  lemma NextOnClient(k: nat, b: State)
    requires 0 < k <= 17 && Edge(Client, ClientStage(k - 1), b) && !Dead(b)
    ensures k < 17 && b == ClientStage(k)
  {
  }

  lemma NextOnServer(k: nat, b: State)
    requires 0 < k <= 19 && Edge(Server, ServerStage(k - 1), b) && !Dead(b)
    ensures k < 19 && (b == ServerStage(k) || (k == 4 && b == ServerStage(6)))
  {
  }

  lemma NextOnRoute(role: Role, waited: bool, k: nat, b: State)
    requires 0 < k <= RouteLength(role, waited)
    requires Edge(role, Stage(role, waited, k - 1), b) && !Dead(b)
    ensures k < RouteLength(role, waited)
    ensures b == Stage(role, waited, k) || (role == Server && k == 4 && b == Stage(role, !waited, 4))
  {
    hide Edge, Dead, ClientStage, ServerStage;
    if role == Client {
      NextOnClient(k, b);
    } else {
      NextOnServer(if waited || k <= 4 then k else k + 2, b);
    }
  }

  /** A path that has not failed is the beginning of a route. */
  lemma {:induction false} AliveOnRoute(role: Role, p: seq<State>, k: nat) returns (waited: bool)
    requires Walk(role, p) && k < |p| && p[0] == CmiInitStart && !Dead(p[k])
    ensures k < RouteLength(role, waited)
    ensures forall i | 0 <= i <= k :: p[i] == Stage(role, waited, i)
    decreases k
  {
    if k == 0 {
      waited := false;
    } else {
      assert Edge(role, p[k - 1], p[k]);
      assert !Dead(p[k - 1]);
      var w := AliveOnRoute(role, p, k - 1);
      NextOnRoute(role, w, k, p[k]);
      hide Edge, Dead, ClientStage, ServerStage, Walk;
      waited := if p[k] == Stage(role, w, k) then w else !w;
    }
  }

  // ---------------------------------------------------------------- before hello is accepted

  predicate NoAcceptance(p: seq<State>) {
    HelloOk !in p
  }

  /** Nobody was accepted so far. */
  predicate Unaccepted(c: Conn) {
    NoAcceptance(c.path)
  }

  lemma SetStateUnaccepted(c: Conn, s: State)
    requires Unaccepted(c) && s != HelloOk
    ensures Unaccepted(SetState(c, s)) && Unaccepted(Enter(c, s))
  {
  }

  lemma SendUnaccepted(c: Conn, m: Message)
    requires Unaccepted(c)
    ensures Unaccepted(Write(c, m).0) && Unaccepted(Send(c, m).0) && Unaccepted(CloseOnce(c)) && Unaccepted(StopTimer(c))
  {
  }

  lemma FailUnaccepted(c: Conn)
    requires Unaccepted(c)
    ensures Unaccepted(Fail(c))
  {
  }

  lemma AbortUnaccepted(c: Conn)
    requires Unaccepted(c)
    ensures Unaccepted(SendAborted(c)) && Unaccepted(AbortHello(c))
  {
    forall d: Conn | Unaccepted(d) ensures Unaccepted(SendAborted(d)) {
      SendUnaccepted(StopTimer(d), ABORTED);
      var e := Send(StopTimer(d), ABORTED).0;
      hide SetState, Send, Fail;
      SetStateUnaccepted(e, HelloAbortDone);
      FailUnaccepted(e);
    }
    SetStateUnaccepted(c, HelloAbort);
    hide Unaccepted, SetState, SendAborted;
  }

  lemma SendReadyUnaccepted(c: Conn)
    requires Unaccepted(c)
    ensures Unaccepted(SendReady(c))
  {
    hide Unaccepted, SetState, Send, AbortHello;
    SendUnaccepted(c, READY);
    var d := Send(c, READY).0;
    SetStateUnaccepted(d, HelloReadyListen);
    AbortUnaccepted(d);
  }

  // ---------------------------------------------------------------- what every handler keeps

  /** Once hello was accepted it is not aborted any more. */
  predicate Committed(p: seq<State>) {
    forall i, j | 0 <= i < j < |p| :: p[i] == HelloOk ==> p[j] != HelloAbort
  }

  /** A "ready". */
  predicate SaysReady(m: Message) {
    m.HelloMessage? && m.hello.phase == Ready
  }

  /** The proposal of a protocol version. */
  predicate Proposes(m: Message) {
    m.HandshakeMessage? && m.handshake.kind == AnnounceMax
  }

  /**
   Only the messages of this implementation are sent: "ready", the proposal and the access methods only in
   states of their own, and the access methods with the own SHIP ID.
   */
  predicate Declared(p: seq<State>, id: string, sent: seq<Message>) {
    forall m | m in sent ::
      && !m.ForeignMessage? && (m.AccessMethodsMessage? ==> AccessMethodsRequest in p && m.shipId == Some(id))
      && (SaysReady(m) ==> HelloReadyInit in p || HelloReadyListen in p) && (Proposes(m) ==> ProtClientInit in p)
  }

  predicate MaySend(c: Conn, m: Message) {
    && !m.ForeignMessage? && (m.AccessMethodsMessage? ==> c.state == AccessMethodsRequest && m.shipId == Some(c.localId))
    && (SaysReady(m) ==> c.state == HelloReadyInit || c.state == HelloReadyListen)
    && (Proposes(m) ==> c.state == ProtClientInit)
  }

  /** The recorded path is a walk from the start to the current state, and continues the one of b. */
  predicate Recorded(b: Conn, role: Role, id: string, p: seq<State>, state: State, sent: seq<Message>) {
    && |p| > 0 && p[0] == CmiInitStart && p[|p| - 1] == state && Walk(role, p) && Committed(p) && Declared(p, id, sent)
    && role == b.role && id == b.localId && b.path <= p && b.sent <= sent
    && (Approved in p ==> Approved in b.path || b.state == AccessMethodsRequest)
  }

  /** What holds of c in the course of an event that found b. */
  predicate Kept(b: Conn, c: Conn) {
    && Recorded(b, c.role, c.localId, c.path, c.state, c.sent) && (c.shutdown ==> !c.open)
    && (c.remoteId == b.remoteId || b.state == AccessMethodsRequest)
  }

  predicate Sound(c: Conn) {
    Kept(c, c)
  }

  lemma KeptIsSound(b: Conn, c: Conn)
    requires Kept(b, c)
    ensures Sound(c)
  {
  }

  lemma HelloNotYet(b: Conn, c: Conn)
    requires Kept(b, c)
    requires c.state == HelloReadyInit || c.state == HelloReadyListen || c.state == HelloPendingListen
    ensures Unaccepted(c)
  {
    var waited := AliveOnRoute(c.role, c.path, |c.path| - 1);
  }

  /** The changes of state an event may make. */
  predicate May(b: Conn, c: Conn, s: State) {
    && (c.state == s || Edge(c.role, c.state, s))
    && (s == HelloAbort ==> Unaccepted(c))
    && (s == Approved ==> b.state == AccessMethodsRequest)
  }

  lemma EnterKeeps(b: Conn, c: Conn, s: State)
    requires Kept(b, c) && May(b, c, s)
    ensures Kept(b, Enter(c, s))
  {
  }

  lemma SetStateKeeps(b: Conn, c: Conn, s: State)
    requires Kept(b, c) && May(b, c, s)
    ensures Kept(b, SetState(c, s))
  {
    EnterKeeps(b, c, s);
    hide Edge, Enter, Recorded;
  }

  lemma RecordedSends(b: Conn, c: Conn, m: Message)
    requires Kept(b, c) && MaySend(c, m)
    ensures Recorded(b, c.role, c.localId, c.path, c.state, c.sent + [m])
  {
  }

  lemma SendKeeps(b: Conn, c: Conn, m: Message)
    requires Kept(b, c) && MaySend(c, m)
    ensures Kept(b, Write(c, m).0) && Kept(b, Send(c, m).0) && Kept(b, CloseOnce(c)) && Kept(b, StopTimer(c))
    ensures Write(c, m).0.path == c.path && Send(c, m).0.path == c.path && CloseOnce(c).path == c.path
  {
    RecordedSends(b, c, m);
    hide Recorded, Edge;
  }

  lemma FailKeeps(b: Conn, c: Conn)
    requires Kept(b, c)
    ensures Kept(b, Fail(c)) && !Fail(c).open
  {
    hide Recorded, SetState, Send;
    SetStateKeeps(b, StopTimer(c), Error);
    SendKeeps(b, SetState(StopTimer(c), Error), CmiMessage);
  }

  lemma AbortProtocolKeeps(b: Conn, c: Conn, reason: AbortReason)
    requires Kept(b, c)
    ensures Kept(b, AbortProtocol(c, reason))
  {
    hide Recorded, SetState, Send;
    SendKeeps(b, StopTimer(c), HandshakeErrorMessage(reason));
    hide Kept;
    ErrorKeeps(b, Send(StopTimer(c), HandshakeErrorMessage(reason)).0);
  }

  lemma ErrorKeeps(b: Conn, c: Conn)
    requires Kept(b, c)
    ensures Kept(b, CloseOnce(SetState(c, Error)))
  {
    hide Recorded, SetState, CloseOnce;
    SetStateKeeps(b, c, Error);
    SendKeeps(b, SetState(c, Error), CmiMessage);
  }

  lemma SendAbortedKeeps(b: Conn, c: Conn)
    requires Kept(b, c) && c.state == HelloAbort
    ensures Kept(b, SendAborted(c))
  {
    hide Recorded, SetState, Send;
    SendKeeps(b, StopTimer(c), ABORTED);
    var d := Send(StopTimer(c), ABORTED).0;
    SetStateKeeps(b, d, HelloAbortDone);
    FailKeeps(b, d);
  }

  lemma AbortHelloKeeps(b: Conn, c: Conn)
    requires Kept(b, c) && Edge(c.role, c.state, HelloAbort) && Unaccepted(c)
    ensures Kept(b, AbortHello(c))
  {
    hide Recorded, SetState, SendAborted;
    SetStateKeeps(b, c, HelloAbort);
    SendAbortedKeeps(b, SetState(c, HelloAbort));
  }

  lemma SendReadyKeeps(b: Conn, c: Conn)
    requires Kept(b, c) && c.state == HelloReadyInit
    ensures Kept(b, SendReady(c)) && Unaccepted(SendReady(c))
  {
    hide Recorded, NoAcceptance, SetState, Send, AbortHello;
    HelloNotYet(b, c);
    SendReadyUnaccepted(c);
    SendKeeps(b, c, READY);
    var d := Send(c, READY).0;
    SetStateKeeps(b, d, HelloReadyListen);
    AbortHelloKeeps(b, d);
  }

  lemma SendPendingKeeps(b: Conn, c: Conn, hub: Hub)
    requires Kept(b, c) && c.state == HelloPendingInit
    ensures Kept(b, SendPending(c, hub))
  {
    hide Recorded, NoAcceptance, SetState, Send, AbortHello, Fail;
    SendKeeps(b, c, PENDING);
    var d := Send(c, PENDING).0;
    FailKeeps(b, d);
    SetStateKeeps(b, d, HelloPendingListen);
    var e := SetState(d, HelloPendingListen);
    HelloNotYet(b, e);
    AbortHelloKeeps(b, e);
  }

  lemma ChooseHelloKeeps(b: Conn, c: Conn, hub: Hub)
    requires Kept(b, c) && c.state == Hello
    ensures Kept(b, ChooseHello(c, hub))
  {
    hide Recorded, SetState, SendPending, SendReady;
    if hub.paired || hub.autoAccept || c.role == Client {
      SetStateKeeps(b, c, HelloReadyInit);
      SendReadyKeeps(b, SetState(c, HelloReadyInit));
    } else {
      SetStateKeeps(b, c, HelloPendingInit);
      SendPendingKeeps(b, SetState(c, HelloPendingInit), hub);
    }
  }

  lemma ServerProtocolKeeps(b: Conn, c: Conn)
    requires Kept(b, c) && c.state == HelloOk && c.role == Server
    ensures Kept(b, StartProtocol(c))
  {
    hide Recorded, SetState, Send, Fail;
    SetStateKeeps(b, c, ProtServerInit);
    SetStateKeeps(b, Arm(SetState(c, ProtServerInit), WaitForReady, CMI_TIMEOUT), ProtServerListenProposal);
  }

  lemma ClientProtocolKeeps(b: Conn, c: Conn)
    requires Kept(b, c) && c.state == HelloOk && c.role == Client
    ensures Kept(b, StartProtocol(c))
  {
    hide Recorded, SetState, Send, Fail;
    SetStateKeeps(b, c, ProtClientInit);
    var d := SetState(c, ProtClientInit);
    SendKeeps(b, d, ANNOUNCE);
    SetStateKeeps(b, Send(d, ANNOUNCE).0, ProtClientListenChoice);
    FailKeeps(b, Send(d, ANNOUNCE).0);
  }

  lemma AcceptHelloKeeps(b: Conn, c: Conn)
    requires Kept(b, c) && c.state == HelloReadyListen
    ensures Kept(b, AcceptHello(c))
  {
    hide Recorded, SetState, StartProtocol;
    SetStateKeeps(b, c, HelloOk);
    if c.role == Server {
      ServerProtocolKeeps(b, SetState(c, HelloOk));
    } else {
      ClientProtocolKeeps(b, SetState(c, HelloOk));
    }
  }

  lemma StartPinKeeps(b: Conn, c: Conn)
    requires Kept(b, c) && (c.state == ProtServerOk || c.state == ProtClientOk)
    ensures Kept(b, StartPin(c))
  {
    hide Recorded, SetState, Send, Fail;
    SetStateKeeps(b, c, PinCheckInit);
    var d := SetState(c, PinCheckInit);
    SendKeeps(b, d, PIN_NONE);
    SetStateKeeps(b, Send(d, PIN_NONE).0, PinCheckListen);
    FailKeeps(b, Send(d, PIN_NONE).0);
  }

  lemma ClientCmiKeeps(b: Conn, c: Conn, hub: Hub, m: Option<Message>)
    requires Kept(b, c) && c.state == CmiClientWait
    ensures Kept(b, OnClientCmi(c, hub, m))
  {
    hide Recorded, SetState, Send, Write, Fail, ChooseHello;
    SetStateKeeps(b, c, CmiClientEvaluate);
    var d := SetState(c, CmiClientEvaluate);
    SetStateKeeps(b, d, Hello);
    ChooseHelloKeeps(b, SetState(d, Hello), hub);
    SendKeeps(b, d, CmiMessage);
    FailKeeps(b, RejectCmi(d));
  }

  lemma EvaluatedKeeps(b: Conn, c: Conn, hub: Hub)
    requires Kept(b, c) && c.state == CmiServerEvaluate
    ensures Kept(b, ChooseHello(SetState(c, Hello), hub)) && Kept(b, Fail(c))
  {
    hide Recorded, SetState, Send, Fail, ChooseHello;
    SetStateKeeps(b, c, Hello);
    ChooseHelloKeeps(b, SetState(c, Hello), hub);
    FailKeeps(b, c);
  }

  lemma ServerCmiKeeps(b: Conn, c: Conn, hub: Hub, m: Option<Message>)
    requires Kept(b, c) && c.state == CmiServerWait
    ensures Kept(b, OnServerCmi(c, hub, m))
  {
    hide Kept, SetState, Send, Write, Fail, ChooseHello, IsCmi;
    EvaluatesKeeps(b, c);
    var d := SetState(c, CmiServerEvaluate);
    EvaluatedKeeps(b, Write(d, CmiMessage).0, hub);
    EvaluatedKeeps(b, d, hub);
  }

  lemma EvaluatesKeeps(b: Conn, c: Conn)
    requires Kept(b, c) && c.state == CmiServerWait
    ensures var d := SetState(c, CmiServerEvaluate); Kept(b, d) && Kept(b, Write(d, CmiMessage).0)
  {
    hide Recorded, SetState, Send, Write;
    SetStateKeeps(b, c, CmiServerEvaluate);
    SendKeeps(b, SetState(c, CmiServerEvaluate), CmiMessage);
  }

  lemma ReadyListenKeeps(b: Conn, c: Conn, hub: Hub, m: Option<Message>)
    requires Kept(b, c) && c.state == HelloReadyListen
    ensures Kept(b, OnReadyListen(c, hub, m))
  {
    hide Recorded, SetState, Send, Fail, AbortHello, AcceptHello, AsHello, NoAcceptance;
    HelloNotYet(b, c);
    AbortHelloKeeps(b, c);
    AcceptHelloKeeps(b, c);
    SetStateKeeps(b, c, HelloRemoteAbortDone);
    hide Edge, May;
    var d := if hub.waitAllowed then Arm(c, WaitForReady, HELLO_INIT) else c;
    SendKeeps(b, d, READY);
    FailKeeps(b, Send(d, READY).0);
  }

  lemma ProposalKeeps(b: Conn, c: Conn, m: Option<Message>)
    requires Kept(b, c) && c.state == ProtServerListenProposal
    ensures Kept(b, OnProposal(c, m))
  {
    hide Recorded, SetState, Send, Fail, AbortProtocol, AsHandshake;
    var d := StopTimer(c);
    AbortProtocolKeeps(b, c, UnexpectedMessage);
    SendKeeps(b, d, SELECT);
    var e := Send(d, SELECT).0;
    FailKeeps(b, e);
    SetStateKeeps(b, Arm(e, WaitForReady, CMI_TIMEOUT), ProtServerListenConfirm);
  }

  lemma ConfirmKeeps(b: Conn, c: Conn, m: Option<Message>)
    requires Kept(b, c) && c.state == ProtServerListenConfirm
    ensures Kept(b, OnConfirm(c, m))
  {
    hide Recorded, SetState, Send, StartPin, AbortProtocol, AsHandshake;
    var d := StopTimer(c);
    AbortProtocolKeeps(b, c, UnexpectedMessage);
    AbortProtocolKeeps(b, c, SelectionMismatch);
    SetStateKeeps(b, d, ProtServerOk);
    StartPinKeeps(b, SetState(d, ProtServerOk));
  }

  lemma ChoiceKeeps(b: Conn, c: Conn, m: Option<Message>)
    requires Kept(b, c) && c.state == ProtClientListenChoice
    ensures Kept(b, OnChoice(c, m))
  {
    hide Recorded, SetState, Send, Fail, StartPin, AbortProtocol, AsHandshake, ValidSelection;
    AbortProtocolKeeps(b, c, UnexpectedMessage);
    AbortProtocolKeeps(b, c, SelectionMismatch);
    SendKeeps(b, StopTimer(c), SELECT);
    var d := Send(StopTimer(c), SELECT).0;
    FailKeeps(b, d);
    SetStateKeeps(b, d, ProtClientOk);
    StartPinKeeps(b, SetState(d, ProtClientOk));
  }

  lemma PinKeeps(b: Conn, c: Conn, m: Option<Message>)
    requires Kept(b, c) && c.state == PinCheckListen
    ensures Kept(b, OnPin(c, m))
  {
    hide Recorded, SetState, Send, Fail, AsPin;
    FailKeeps(b, c);
    SetStateKeeps(b, c, PinCheckOk);
    var d := SetState(c, PinCheckOk);
    SendKeeps(b, d, AccessRequestMessage);
    var e := Send(d, AccessRequestMessage).0;
    FailKeeps(b, e);
    SetStateKeeps(b, Arm(e, WaitForReady, CMI_TIMEOUT), AccessMethodsRequest);
  }

  lemma FinishKeeps(b: Conn, c: Conn)
    requires Kept(b, c) && c.state == b.state == AccessMethodsRequest
    ensures Kept(b, Finish(c))
  {
    hide Recorded, SetState;
    SetStateKeeps(b, c, Approved);
    SetStateKeeps(b, StopTimer(SetState(c, Approved).(reader := true)), Complete);
  }

  lemma AccessKeeps(b: Conn, c: Conn, m: Option<Message>)
    requires Kept(b, c) && c.state == b.state == AccessMethodsRequest
    ensures Kept(b, OnAccess(c, m))
  {
    hide Recorded, Finish, Send, Fail, AsAccess;
    FailKeeps(b, c);
    var a := AsAccess(m);
    if a.Request? {
      SendKeeps(b, c, AccessMethodsMessage(Some(c.localId)));
      FailKeeps(b, Send(c, AccessMethodsMessage(Some(c.localId))).0);
    } else if a.Methods? && a.id.Some? {
      FinishKeeps(b, c.(remoteId := a.id.value));
    }
  }

  lemma WaitingKeeps(b: Conn, c: Conn, hub: Hub, m: Option<Message>)
    requires Kept(b, c) && c.state == b.state
    ensures Kept(b, OnWaiting(c, hub, m))
  {
    hide Kept, OnClientCmi, OnServerCmi, OnReadyListen, OnPendingListen, OnProposal, OnConfirm, OnChoice, OnPin, OnAccess;
    match c.state
    case CmiClientWait => ClientCmiKeeps(b, c, hub, m);
    case CmiServerWait => ServerCmiKeeps(b, c, hub, m);
    case HelloReadyListen => ReadyListenKeeps(b, c, hub, m);
    case HelloPendingListen => PendingKeeps(b, c, m);
    case ProtServerListenProposal => ProposalKeeps(b, c, m);
    case ProtServerListenConfirm => ConfirmKeeps(b, c, m);
    case ProtClientListenChoice =>
      assert Kept(b, StopTimer(c)) by { SendKeeps(b, c, CmiMessage); }
      ChoiceKeeps(b, StopTimer(c), m);
    case PinCheckListen => PinKeeps(b, c, m);
    case AccessMethodsRequest => AccessKeeps(b, c, m);
    case _ =>
  }

  lemma PeerPendingKeeps(b: Conn, c: Conn, hello: HelloBody)
    requires Kept(b, c) && c.state == HelloPendingListen
    ensures Kept(b, OnPeerPending(c, hello))
  {
    hide Recorded, NoAcceptance, SetState, Send, Fail, AbortHello, WaitingDuration;
    HelloNotYet(b, c);
    AbortHelloKeeps(b, c);
    SendKeeps(b, c, PENDING);
    FailKeeps(b, Send(c, PENDING).0);
    if hello.waiting.Some? {
      AbortHelloKeeps(b, StopTimer(c).(lastWaiting := WaitingDuration(hello.waiting.value)));
    }
  }

  lemma PendingAborts(b: Conn, c: Conn)
    requires Kept(b, c) && c.state == HelloPendingListen
    ensures Kept(b, AbortHello(c)) && Kept(b, AbortHello(StopTimer(c))) && Kept(b, StopTimer(c))
    ensures Kept(b, SetState(c, HelloRemoteAbortDone))
  {
    hide Recorded, NoAcceptance, SetState, AbortHello;
    HelloNotYet(b, c);
    AbortHelloKeeps(b, c);
    AbortHelloKeeps(b, StopTimer(c));
    SetStateKeeps(b, c, HelloRemoteAbortDone);
  }

  lemma PendingKeeps(b: Conn, c: Conn, m: Option<Message>)
    requires Kept(b, c) && c.state == HelloPendingListen
    ensures Kept(b, OnPendingListen(c, m))
  {
    hide Recorded, SetState, AbortHello, AsHello, WaitingDuration, OnPeerPending;
    PendingAborts(b, c);
    if AsHello(m).Some? { PeerPendingKeeps(b, c, AsHello(m).value); }
  }

  lemma TimeoutKeeps(b: Conn, c0: Conn, hub: Hub)
    requires Kept(b, c0)
    ensures Kept(b, OnTimeout(c0, hub))
  {
    hide Recorded, SetState, Send, Fail, AbortHello, AbortProtocol;
    var c := StopTimer(c0);
    FailKeeps(b, c);
    AbortProtocolKeeps(b, c, Timedout);
    if c.state == HelloReadyListen || c.state == HelloPendingListen {
      HelloNotYet(b, c);
      AbortHelloKeeps(b, c);
    }
    SendKeeps(b, c, PROLONG);
    FailKeeps(b, Send(c, PROLONG).0);
  }

  /**
   The one way in which a write outcome breaks the order: during an approval the "ready" is refused
   although the data connection stays open, and the "aborted" that follows goes through.
   */
  predicate Glitch(c: Conn, e: Event) {
    && e.kind.Approve? && c.state == HelloPendingListen && c.open
    && e.hub.paired && e.hub.waitAllowed
    && |e.net| > 0 && !e.net[0] && (|e.net| == 1 || e.net[1])
  }

  lemma ReadyOutcome(b: Conn, c: Conn)
    requires Kept(b, c) && c.state == HelloReadyInit && SendReady(c).open
    ensures SendReady(c).state != Error
    ensures SendReady(c).state == HelloAbortDone ==> |c.net| > 0 && !c.net[0] && (|c.net| == 1 || c.net[1])
  {
    hide Recorded, NoAcceptance, Fail, SetState;
    HelloNotYet(b, c);
    var d := Send(c, READY).0;
    SendKeeps(b, c, READY);
    SetStateKeeps(b, d, HelloAbort);
    var e := Send(StopTimer(SetState(d, HelloAbort)), ABORTED).0;
    SendKeeps(b, StopTimer(SetState(d, HelloAbort)), ABORTED);
    FailKeeps(b, e);
    StateOnly(d, HelloAbort);
    hide Kept, Edge, May, CloseOnce;
  }

  lemma StateOnly(c: Conn, s: State)
    ensures SetState(c, s).net == c.net && SetState(c, s).open == c.open && SetState(c, s).sent == c.sent
    ensures SetState(c, s).shutdown == c.shutdown
  {
  }

  lemma ReadyThenAbort(b: Conn, c: Conn)
    requires Kept(b, c) && (c.state == HelloReadyListen || c.state == HelloAbortDone || c.state == Error)
    requires Unaccepted(c)
    ensures Kept(b, AbortHello(c))
  {
    hide Kept, AbortHello;
    AbortHelloKeeps(b, c);
  }

  lemma ApproveKeeps(b: Conn, c: Conn, e: Event)
    requires Kept(b, c) && e.kind.Approve? && c.net == e.net && !Glitch(c, e)
    ensures Kept(b, OnApprove(c, e.hub))
  {
    if c.state == HelloPendingListen {
      var a := StopTimer(Enter(c, HelloReadyInit));
      EnterKeeps(b, c, HelloReadyInit);
      assert a.net == c.net && a.open == c.open && Kept(b, a) && a.state == HelloReadyInit;
      var d := SendReady(a);
      var r := OnApprove(c, e.hub);
      assert r == if d.open && e.hub.paired && e.hub.waitAllowed then AcceptHello(d) else AbortHello(d);
      hide *;
      SendReadyKeeps(b, a);
      if d.open && e.hub.paired && e.hub.waitAllowed {
        ReadyUnlessGlitch(b, c, a, e);
        AcceptHelloKeeps(b, d);
      } else {
        ReadyThenAbort(b, d);
      }
    }
  }

  lemma ReadyUnlessGlitch(b: Conn, c: Conn, a: Conn, e: Event)
    requires c.state == HelloPendingListen && e.kind.Approve? && c.net == e.net && !Glitch(c, e)
    requires Kept(b, a) && a.state == HelloReadyInit && a.net == c.net && a.open == c.open
    requires SendReady(a).open && e.hub.paired && e.hub.waitAllowed
    ensures SendReady(a).state == HelloReadyListen
  {
    hide Kept, SendReady;
    ReadyOutcome(b, a);
    ReadyNeedsOpen(a);
  }

  lemma ReadyNeedsOpen(c: Conn)
    requires SendReady(c).open
    ensures c.open
  {
  }

  lemma RunKeeps(b: Conn, c: Conn)
    requires Kept(b, c) && c.state == CmiInitStart
    ensures Kept(b, OnRun(c))
  {
    hide Recorded, SetState, Send, Write, Fail;
    if c.role == Server {
      SetStateKeeps(b, c, CmiServerWait);
    } else {
      SetStateKeeps(b, c, CmiClientSend);
      var d := SetState(c, CmiClientSend);
      SendKeeps(b, d, CmiMessage);
      SetStateKeeps(b, Write(d, CmiMessage).0, CmiClientWait);
      FailKeeps(b, Write(d, CmiMessage).0);
    }
  }

  lemma AbortKeeps(b: Conn, c: Conn)
    requires Kept(b, c)
    ensures Kept(b, OnAbort(c))
  {
    if c.state == HelloPendingListen || c.state == HelloReadyListen {
      HelloNotYet(b, c);
      EnterKeeps(b, c, HelloAbort);
      hide Recorded, Edge, SendAborted, Enter;
      SendAbortedKeeps(b, StopTimer(Enter(c, HelloAbort)));
    }
  }

  lemma BrokenKeeps(b: Conn, c: Conn, s: State)
    requires Kept(b, c) && May(b, c, s)
    ensures Kept(b, CloseOnce(SetState(c, s)))
  {
    hide Recorded, May, SetState, CloseOnce;
    SetStateKeeps(b, c, s);
    SendKeeps(b, SetState(c, s), CmiMessage);
  }

  lemma ConnectionErrorKeeps(b: Conn, c0: Conn)
    requires Kept(b, c0)
    ensures Kept(b, OnConnectionError(c0))
  {
    hide Recorded, SetState, CloseOnce;
    var c := c0.(open := false);
    SendKeeps(b, c, CmiMessage);
    BrokenKeeps(b, c, if c.state == HelloReadyListen then HelloRejected else Error);
  }

  lemma CloseKeeps(b: Conn, c: Conn, safe: bool)
    requires Kept(b, c)
    ensures Kept(b, OnClose(c, safe))
  {
  }

  lemma MessageKeeps(b: Conn, c: Conn, hub: Hub, m: Message)
    requires Kept(b, c) && c.state == b.state
    ensures Kept(b, OnMessage(c, hub, m))
  {
    hide Recorded, Edge, Send, OnWaiting;
    SendKeeps(b, c, CloseMessage(Confirm));
    WaitingKeeps(b, c, hub, Some(m));
  }

  /** One event keeps the order of states, and everything recorded so far. */
  lemma StepKeeps(c: Conn, e: Event)
    requires Sound(c) && Enabled(c, e) && !Glitch(c, e)
    ensures Kept(c, Step(c, e)) && Sound(Step(c, e))
  {
    var d := c.(net := e.net);
    assert Kept(c, d);
    assert !Glitch(d, e);
    KeptIsSound(c, Step(c, e)) by { EventKeeps(c, d, e); }
    EventKeeps(c, d, e);
  }

  lemma EventKeeps(b: Conn, d: Conn, e: Event)
    requires Kept(b, d) && d == b.(net := e.net) && Enabled(b, e) && !Glitch(d, e)
    ensures Kept(b, Step(b, e))
  {
    hide Kept, Glitch, OnRun, OnMessage, OnTimeout, OnApprove, OnAbort, OnConnectionError, OnClose;
    match e.kind
    case Run => RunKeeps(b, d);
    case Receive(m) => MessageKeeps(b, d, e.hub, m);
    case SpineData =>
    case Timeout => TimeoutKeeps(b, d, e.hub);
    case Approve => ApproveKeeps(b, d, e);
    case AbortByUser => AbortKeeps(b, d);
    case ConnectionError => ConnectionErrorKeeps(b, d);
    case Close(safe) => CloseKeeps(b, d, safe);
  }

  /** The "ready" is refused, the "aborted" is sent, and the connection stays open. */
  lemma RefusedReady(c: Conn)
    requires c.state == HelloReadyInit && c.open && |c.path| > 0
    requires |c.net| > 0 && !c.net[0] && (|c.net| == 1 || c.net[1])
    ensures var d := SendReady(c); d.state == HelloAbortDone && d.open && d.role == c.role && d.localId == c.localId
    ensures SendReady(c).path == c.path + [HelloAbort, HelloAbortDone] && SendReady(c).sent == c.sent + [ABORTED]
  {
  }

  /** What an approval does under that outcome: after the abort was sent, the peer is accepted. */
  lemma GlitchBreaks(c: Conn, e: Event)
    requires Sound(c) && Glitch(c, e)
    ensures !Walk(c.role, Step(c, e).path)
  {
    hide Recorded, Walk, SendReady, AcceptHello, AbortHello;
    var d := c.(net := e.net);
    var a := StopTimer(Enter(d, HelloReadyInit));
    RefusedReady(a);
    AcceptedPath(SendReady(a));
  }

  lemma AcceptedPath(c: Conn)
    requires c.state == HelloAbortDone && |c.path| > 0 && c.path[|c.path| - 1] == HelloAbortDone
    ensures !Walk(c.role, AcceptHello(c).path)
  {
    var d := SetState(c, HelloOk);
    assert d.path == c.path + [HelloOk];
    PathGrows(d);
    var p := AcceptHello(c).path;
    assert p[|c.path|] == d.path[|c.path|] && p[|c.path| - 1] == d.path[|c.path| - 1];
    assert !Edge(c.role, p[|c.path| - 1], p[|c.path|]);
  }

  lemma PathGrows(c: Conn)
    ensures c.path <= StartProtocol(c).path
  {
    hide SetState;
    if c.role == Server {
      SetStateGrows(c, ProtServerInit);
      SetStateGrows(Arm(SetState(c, ProtServerInit), WaitForReady, CMI_TIMEOUT), ProtServerListenProposal);
    } else {
      SetStateGrows(c, ProtClientInit);
      var d := Send(SetState(c, ProtClientInit), ANNOUNCE).0;
      SetStateGrows(d, ProtClientListenChoice);
      SetStateGrows(StopTimer(d), Error);
    }
  }

  lemma SetStateGrows(c: Conn, s: State)
    ensures c.path <= SetState(c, s).path
  {
  }

  /** The order of states is kept by an event if and only if the event is not that one. */
  lemma OrderExact(c: Conn, e: Event)
    requires Sound(c) && Enabled(c, e)
    ensures Walk(c.role, Step(c, e).path) <==> !Glitch(c, e)
  {
    hide Step, Glitch, Enabled, Walk;
    if Glitch(c, e) { GlitchBreaks(c, e); } else { StepKeeps(c, e); }
  }

  // ---------------------------------------------------------------- whole runs

  predicate SteadyRun(c: Conn, es: seq<Event>)
    decreases |es|
  {
    es == [] || (Enabled(c, es[0]) && !Glitch(c, es[0]) && SteadyRun(Step(c, es[0]), es[1..]))
  }

  /** Every run without that write outcome keeps to the order of states. */
  lemma {:induction false} RunWalks(c: Conn, es: seq<Event>)
    requires Sound(c) && SteadyRun(c, es)
    ensures Sound(RunAll(c, es))
    decreases |es|
  {
    hide Sound, Step, Enabled, Glitch;
    if es != [] {
      StepKeeps(c, es[0]);
      RunWalks(Step(c, es[0]), es[1..]);
    }
  }

  // ---------------------------------------------------------------- completion and failure

  lemma CompleteEndsRoute(role: Role, waited: bool, k: nat)
    requires k < RouteLength(role, waited) && Stage(role, waited, k) == Complete
    ensures k + 1 == RouteLength(role, waited)
  {
  }

  /**
   Whatever the peer sends and the user does: a handshake that completes has entered exactly the states
   of one of the routes, in that order, up to there.
   */
  lemma CompletedPath(c: Conn, es: seq<Event>, k: nat) returns (waited: bool)
    requires Initial(c) && SteadyRun(c, es)
    requires k < |RunAll(c, es).path| && RunAll(c, es).path[k] == Complete
    ensures RunAll(c, es).path[..k + 1] == Route(RunAll(c, es).role, waited)
  {
    RunWalks(c, es);
    var d := RunAll(c, es);
    hide RunAll, SteadyRun, Edge, Initial, Stage;
    waited := AliveOnRoute(d.role, d.path, k);
    CompleteEndsRoute(d.role, waited, k);
  }

  lemma DeadStep(role: Role, a: State, b: State)
    requires Dead(a) && Edge(role, a, b)
    ensures Dead(b)
  {
  }

  /** An endpoint that failed, aborted, was aborted or was rejected stays so. */
  lemma {:induction false} DeadStaysDead(role: Role, p: seq<State>, i: nat, j: nat)
    requires Walk(role, p) && i <= j < |p| && Dead(p[i])
    ensures Dead(p[j])
    decreases j
  {
    if i < j {
      hide Edge, Dead;
      DeadStaysDead(role, p, i, j - 1);
      DeadStep(role, p[j - 1], p[j]);
    }
  }

  lemma FailedNeverCompletes(c: Conn, es: seq<Event>, i: nat, j: nat)
    requires Initial(c) && SteadyRun(c, es)
    requires i <= j < |RunAll(c, es).path| && Dead(RunAll(c, es).path[i])
    ensures RunAll(c, es).path[j] != Complete && RunAll(c, es).path[j] != HelloOk
  {
    RunWalks(c, es);
    var d := RunAll(c, es);
    DeadStaysDead(d.role, d.path, i, j);
  }
}
