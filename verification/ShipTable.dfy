/**
 The handshake as one table. For every state an endpoint rests in and every event, the table says where the
 event leaves it and what is sent on a connection that works. The chains of nested state changes that the code
 runs through are proved to end there; on a connection that does not work every event that has anything to send
 ends the handshake.
 */
module ShipTable {
  import opened Basics
  import opened ShipModel
  import opened ShipEndpoint

  /** The messages of this implementation, waiting values in milliseconds. */
  lemma OwnMessages()
    ensures READY == HelloMessage(HelloBody(Ready, Some(60_000), None))
    ensures PENDING == HelloMessage(HelloBody(Pending, Some(60_000), None))
    ensures PROLONG == HelloMessage(HelloBody(Pending, None, Some(true)))
    ensures ABORTED == HelloMessage(HelloBody(Aborted, None, None))
    ensures ANNOUNCE == HandshakeMessage(HandshakeBody(AnnounceMax, 1, 0, [Utf8]))
    ensures SELECT == HandshakeMessage(HandshakeBody(Select, 1, 0, [Utf8]))
    ensures PIN_NONE == PinMessage(PinNone)
  {
  }

  // ---------------------------------------------------------------- where an endpoint may rest

  /** The state an event leads to, whether the data connection stays open, and what is sent. */
  datatype Outcome = Outcome(state: State, open: bool, said: seq<Message>)

  /** Which end can be in which state. */
  predicate Fitting(role: Role, s: State) {
    match s
    case CmiClientWait => role == Client
    case ProtClientListenChoice => role == Client
    case CmiServerWait => role == Server
    case HelloPendingListen => role == Server
    case ProtServerListenProposal => role == Server
    case ProtServerListenConfirm => role == Server
    case _ => true
  }

  /** A state to rest in before the handshake is complete. */
  predicate Rests(role: Role, o: Outcome) {
    Resting(o.state) && Fitting(role, o.state) && o.state != Complete
  }

  // ---------------------------------------------------------------- the table

  function GoesTo(s: State, said: seq<Message>): Outcome {
    Outcome(s, true, said)
  }

  function EndsWith(said: seq<Message>): Outcome {
    Outcome(Error, false, said)
  }

  function Aborts(): Outcome {
    GoesTo(HelloAbortDone, [ABORTED])
  }

  function Accepts(role: Role): Outcome {
    if role == Server then GoesTo(ProtServerListenProposal, []) else GoesTo(ProtClientListenChoice, [ANNOUNCE])
  }

  function ServerHello(hub: Hub): (o: Outcome)
    ensures Rests(Server, o)
  {
    if hub.paired || hub.autoAccept then GoesTo(HelloReadyListen, [CmiMessage, READY])
    else if hub.waitAllowed then GoesTo(HelloPendingListen, [CmiMessage, PENDING])
    else GoesTo(HelloAbortDone, [CmiMessage, PENDING, ABORTED])
  }

  function ReadyHears(role: Role, m: Message): (o: Outcome)
    ensures Rests(role, o)
  {
    match AsHello(Some(m))
    case Some(HelloBody(Ready, _, _)) => Accepts(role)
    case Some(HelloBody(Pending, _, Some(true))) => GoesTo(HelloReadyListen, [READY])
    case Some(HelloBody(Pending, _, _)) => GoesTo(HelloReadyListen, [])
    case Some(HelloBody(Aborted, _, _)) => GoesTo(HelloRemoteAbortDone, [])
    case _ => Aborts()
  }

  function PendingHears(m: Message): (o: Outcome)
    ensures Rests(Server, o)
  {
    match AsHello(Some(m))
    case Some(HelloBody(Ready, Some(w), _)) =>
      if WaitingDuration(w) >= 30 * SECOND then GoesTo(HelloPendingListen, []) else Aborts()
    case Some(HelloBody(Pending, Some(w), None)) =>
      if WaitingDuration(w) >= SECOND then GoesTo(HelloPendingListen, []) else Aborts()
    case Some(HelloBody(Pending, None, Some(true))) => GoesTo(HelloPendingListen, [PENDING])
    case Some(HelloBody(Aborted, _, _)) => GoesTo(HelloRemoteAbortDone, [])
    case _ => Aborts()
  }

  function ProposalHears(m: Message): (o: Outcome)
    ensures Rests(Server, o)
  {
    match AsHandshake(Some(m))
    case Some(HandshakeBody(AnnounceMax, _, _, _)) => GoesTo(ProtServerListenConfirm, [SELECT])
    case _ => EndsWith([HandshakeErrorMessage(UnexpectedMessage)])
  }

  function ConfirmHears(m: Message): (o: Outcome)
    ensures Rests(Server, o)
  {
    match AsHandshake(Some(m))
    case Some(HandshakeBody(Select, _, _, _)) => GoesTo(PinCheckListen, [PIN_NONE])
    case Some(_) => EndsWith([HandshakeErrorMessage(SelectionMismatch)])
    case None => EndsWith([HandshakeErrorMessage(UnexpectedMessage)])
  }

  function ChoiceHears(m: Message): (o: Outcome)
    ensures Rests(Client, o)
  {
    match AsHandshake(Some(m))
    case Some(HandshakeBody(Select, major, minor, formats)) =>
      if major == 1 && minor == 0 && formats == [Utf8] then GoesTo(PinCheckListen, [SELECT, PIN_NONE])
      else EndsWith([HandshakeErrorMessage(SelectionMismatch)])
    case _ => EndsWith([HandshakeErrorMessage(UnexpectedMessage)])
  }

  function AccessHears(c: Conn, m: Message): Outcome {
    match AsAccess(Some(m))
    case Request => GoesTo(AccessMethodsRequest, [AccessMethodsMessage(Some(c.localId))])
    case Methods(Some(id)) => if c.remoteId in {"", id} then GoesTo(Complete, []) else EndsWith([])
    case _ => EndsWith([])
  }

  function Hears(c: Conn, hub: Hub, m: Message): Outcome {
    match c.state
    case CmiClientWait => if IsCmi(Some(m)) then GoesTo(HelloReadyListen, [READY]) else EndsWith([])
    case CmiServerWait => if IsCmi(Some(m)) then ServerHello(hub) else EndsWith([CmiMessage])
    case HelloReadyListen => ReadyHears(c.role, m)
    case HelloPendingListen => PendingHears(m)
    case ProtServerListenProposal => ProposalHears(m)
    case ProtServerListenConfirm => ConfirmHears(m)
    case ProtClientListenChoice => ChoiceHears(m)
    case PinCheckListen => if AsPin(Some(m)) == Some(PinNone) then GoesTo(AccessMethodsRequest, [AccessRequestMessage]) else EndsWith([])
    case AccessMethodsRequest => AccessHears(c, m)
    case s => GoesTo(s, [])
  }

  function TimesOut(c: Conn, hub: Hub): Outcome {
    match c.state
    case HelloReadyListen => Aborts()
    case HelloPendingListen =>
      if hub.waitAllowed || c.timer.kind == SendProlongationRequest then GoesTo(HelloPendingListen, [PROLONG]) else Aborts()
    case ProtServerListenProposal => EndsWith([HandshakeErrorMessage(Timedout)])
    case ProtServerListenConfirm => EndsWith([HandshakeErrorMessage(Timedout)])
    case ProtClientListenChoice => EndsWith([HandshakeErrorMessage(Timedout)])
    case CmiClientWait => EndsWith([])
    case CmiServerWait => EndsWith([])
    case PinCheckListen => EndsWith([])
    case AccessMethodsRequest => EndsWith([])
    case s => GoesTo(s, [])
  }

  /** The data connection breaks. */
  function Breaks(s: State): State {
    if s == HelloRemoteAbortDone || s == HelloAbortDone then s
    else if s == HelloReadyListen then HelloRejected else Error
  }

  function Table(c: Conn, e: Event): Outcome {
    match e.kind
    case Run => if c.role == Client then GoesTo(CmiClientWait, [CmiMessage]) else GoesTo(CmiServerWait, [])
    case Receive(CloseMessage(Announce)) => Outcome(c.state, false, [CloseMessage(Confirm)])
    case Receive(CloseMessage(Confirm)) => Outcome(c.state, false, [])
    case Receive(CloseMessage(OtherClose)) => GoesTo(c.state, [])
    case Receive(m) => Hears(c, e.hub, m)
    case SpineData => GoesTo(c.state, [])
    case Timeout => TimesOut(c, e.hub)
    case Approve =>
      if c.state != HelloPendingListen then GoesTo(c.state, [])
      else if e.hub.paired && e.hub.waitAllowed then GoesTo(ProtServerListenProposal, [READY])
      else GoesTo(HelloAbortDone, [READY, ABORTED])
    case AbortByUser => if c.state in {HelloPendingListen, HelloReadyListen} then Aborts() else GoesTo(c.state, [])
    case ConnectionError => Outcome(Breaks(c.state), false, [])
    case Close(safe) => Outcome(c.state, false, if safe && c.state == Complete then [CloseMessage(Announce)] else [])
  }

  /** What holds of an endpoint between two events. */
  predicate Settled(c: Conn) {
    Resting(c.state) && Fitting(c.role, c.state) && (c.shutdown ==> !c.open) && (c.state == Error ==> c.shutdown)
  }

  // ---------------------------------------------------------------- a connection that works

  /** Every write of the event succeeds. */
  predicate Works(c: Conn) {
    c.open && !c.shutdown && c.state != Error && forall i | 0 <= i < |c.net| :: c.net[i]
  }

  /** The states passed and the timer apart, only the given messages have been sent since. */
  predicate Leads(c: Conn, d: Conn, o: Outcome) {
    Outcome(d.state, d.open, d.sent) == o.(said := c.sent + o.said) && (o.open ==> Works(d)) && Alike(c, d)
  }

  /** The same end of the same connection, closed and without a timer once it was shut down. */
  predicate Alike(c: Conn, d: Conn) {
    && d.role == c.role && d.remoteId == c.remoteId && d.localId == c.localId && d.reader == c.reader
    && (d.shutdown ==> !d.open && !d.timer.running) && (d.state == Error ==> d.shutdown)
  }

  lemma QuietState(c: Conn, s: State)
    requires Works(c) && s != Error
    ensures Leads(c, SetState(c, s), GoesTo(s, [])) && Leads(c, Enter(c, s), GoesTo(s, []))
    ensures Leads(c, StopTimer(c), GoesTo(c.state, [])) && forall k, d :: Leads(c, Arm(c, k, d), GoesTo(c.state, []))
  {
  }

  /** One thing after another. */
  lemma Then(c: Conn, d: Conn, e: Conn, o: Outcome, p: Outcome)
    requires o.open && Leads(c, d, o) && Leads(d, e, p)
    ensures Leads(c, e, Outcome(p.state, p.open, o.said + p.said))
    ensures o.said == [] ==> Leads(c, e, p)
    ensures p.said == [] ==> Leads(c, e, Outcome(p.state, p.open, o.said))
  {
  }

  lemma SendWorks(c: Conn, m: Message)
    requires Works(c)
    ensures Send(c, m).1 && Leads(c, Send(c, m).0, GoesTo(c.state, [m]))
    ensures Send(c, m) == Write(c, m)
  {
  }

  lemma FailEnds(c: Conn)
    requires Works(c)
    ensures Leads(c, Fail(c), EndsWith([]))
  {
  }

  lemma AbortProtocolEnds(c: Conn, reason: AbortReason)
    requires Works(c)
    ensures Leads(c, AbortProtocol(c, reason), EndsWith([HandshakeErrorMessage(reason)]))
  {
  }

  lemma AbortedLeads(c: Conn)
    requires Works(c)
    ensures Leads(c, SendAborted(c), Aborts()) && Leads(c, AbortHello(c), Aborts())
  {
    SendAbortedLeads(c);
    QuietState(c, HelloAbort);
    var d := SetState(c, HelloAbort);
    hide SendAborted, SetState, Leads, Works;
    SendAbortedLeads(d) by { LeadsWorks(c, d, GoesTo(HelloAbort, [])); }
    Then(c, d, SendAborted(d), GoesTo(HelloAbort, []), Aborts());
  }

  lemma LeadsWorks(c: Conn, d: Conn, o: Outcome)
    requires Leads(c, d, o) && o.open
    ensures Works(d) && d.state == o.state && d.role == c.role
  {
  }

  /** Something is sent, and then a state is entered. */
  lemma SendsInto(c: Conn, m: Message, s: State)
    requires Works(c) && s != Error
    ensures var d := Send(c, m).0;
            && Send(c, m).1 && Works(d) && Leads(c, SetState(d, s), GoesTo(s, [m]))
            && forall k, x :: Leads(c, SetState(Arm(d, k, x), s), GoesTo(s, [m]))
  {
    SendWorks(c, m);
    var d := Send(c, m).0;
    QuietState(d, s);
    forall k, x ensures Leads(c, SetState(Arm(d, k, x), s), GoesTo(s, [m])) { QuietState(Arm(d, k, x), s); }
    hide SetState, Send;
    Then(c, d, SetState(d, s), GoesTo(c.state, [m]), GoesTo(s, []));
  }

  lemma SendAbortedLeads(c: Conn)
    requires Works(c)
    ensures Leads(c, SendAborted(c), Aborts())
  {
    QuietState(c, HelloAbort);
    var d := StopTimer(c);
    SendsInto(d, ABORTED, HelloAbortDone);
    hide Send, SetState;
  }

  lemma ReadyLeads(c: Conn)
    requires Works(c)
    ensures Leads(c, SendReady(c), GoesTo(HelloReadyListen, [READY]))
  {
    SendsInto(c, READY, HelloReadyListen);
    hide Send, SetState, AbortHello;
  }

  lemma PendingLeads(c: Conn, hub: Hub)
    requires Works(c)
    ensures Leads(c, SendPending(c, hub), if hub.waitAllowed then GoesTo(HelloPendingListen, [PENDING])
                                          else GoesTo(HelloAbortDone, [PENDING, ABORTED]))
  {
    SendsInto(c, PENDING, HelloPendingListen);
    hide AbortHello, SetState, Send;
    var d := SetState(Send(c, PENDING).0, HelloPendingListen);
    AbortedLeads(d);
    Then(c, d, AbortHello(d), GoesTo(HelloPendingListen, [PENDING]), Aborts());
    assert [PENDING] + [ABORTED] == [PENDING, ABORTED];
  }

  function HelloSays(role: Role, hub: Hub): Outcome {
    if role == Client then GoesTo(HelloReadyListen, [READY])
    else var o := ServerHello(hub); Outcome(o.state, o.open, o.said[1..])
  }

  lemma HelloLeads(c: Conn, hub: Hub)
    requires Works(c)
    ensures Leads(c, ChooseHello(c, hub), HelloSays(c.role, hub)) && Leads(c, ChooseHello(SetState(c, Hello), hub), HelloSays(c.role, hub))
  {
    ChoiceLeads(c, hub);
    QuietState(c, Hello);
    ChoiceLeads(SetState(c, Hello), hub);
    hide ChooseHello, SetState;
    Then(c, SetState(c, Hello), ChooseHello(SetState(c, Hello), hub), GoesTo(Hello, []), HelloSays(c.role, hub));
  }

  lemma ChoiceLeads(c: Conn, hub: Hub)
    requires Works(c)
    ensures Leads(c, ChooseHello(c, hub), HelloSays(c.role, hub))
  {
    var s := if hub.paired || hub.autoAccept || c.role == Client then HelloReadyInit else HelloPendingInit;
    QuietState(c, s);
    hide SendReady, SendPending, SetState;
    var d := SetState(c, s);
    ReadyLeads(d);
    PendingLeads(d, hub);
    Then(c, d, SendReady(d), GoesTo(s, []), GoesTo(HelloReadyListen, [READY]));
    Then(c, d, SendPending(d, hub), GoesTo(s, []), if hub.waitAllowed then GoesTo(HelloPendingListen, [PENDING])
                                                  else GoesTo(HelloAbortDone, [PENDING, ABORTED]));
    assert [CmiMessage, READY][1..] == [READY] && [CmiMessage, PENDING][1..] == [PENDING];
    assert [CmiMessage, PENDING, ABORTED][1..] == [PENDING, ABORTED];
  }

  lemma AcceptLeads(c: Conn)
    requires Works(c)
    ensures Leads(c, AcceptHello(c), Accepts(c.role))
  {
    hide SetState, Send;
    QuietState(c, HelloOk);
    var d := SetState(c, HelloOk);
    if c.role == Server {
      QuietState(d, ProtServerInit);
      var e := SetState(d, ProtServerInit);
      Then(c, d, e, GoesTo(HelloOk, []), GoesTo(ProtServerInit, []));
      QuietState(e, ProtServerInit);
      var f := Arm(e, WaitForReady, CMI_TIMEOUT);
      Then(c, e, f, GoesTo(ProtServerInit, []), GoesTo(ProtServerInit, []));
      QuietState(f, ProtServerListenProposal);
      Then(c, f, SetState(f, ProtServerListenProposal), GoesTo(ProtServerInit, []), GoesTo(ProtServerListenProposal, []));
    } else {
      QuietState(d, ProtClientInit);
      var e := SetState(d, ProtClientInit);
      Then(c, d, e, GoesTo(HelloOk, []), GoesTo(ProtClientInit, []));
      SendsInto(e, ANNOUNCE, ProtClientListenChoice);
      Then(c, e, SetState(Send(e, ANNOUNCE).0, ProtClientListenChoice), GoesTo(ProtClientInit, []),
           GoesTo(ProtClientListenChoice, [ANNOUNCE]));
    }
  }

  lemma PinLeads(c: Conn, s: State)
    requires Works(c) && s != Error
    ensures Leads(c, StartPin(SetState(c, s)), GoesTo(PinCheckListen, [PIN_NONE]))
  {
    hide SetState, Send;
    QuietState(c, s);
    var d := SetState(c, s);
    QuietState(d, PinCheckInit);
    var e := SetState(d, PinCheckInit);
    Then(c, d, e, GoesTo(s, []), GoesTo(PinCheckInit, []));
    SendsInto(e, PIN_NONE, PinCheckListen);
    Then(c, e, SetState(Send(e, PIN_NONE).0, PinCheckListen), GoesTo(PinCheckInit, []), GoesTo(PinCheckListen, [PIN_NONE]));
  }

  // ---------------------------------------------------------------- one message

  lemma ClientCmiLeads(c: Conn, hub: Hub, m: Message)
    requires Works(c) && Settled(c) && c.state == CmiClientWait
    ensures Leads(c, OnClientCmi(c, hub, Some(m)), Hears(c, hub, m))
  {
    var s := CmiClientEvaluate;
    QuietState(c, s);
    var d := SetState(c, s);
    LeadsWorks(c, d, GoesTo(s, []));
    hide SetState, ChooseHello, Fail, IsCmi, Write, Leads, Works;
    HelloLeads(d, hub);
    FailEnds(d);
    Then(c, d, ChooseHello(SetState(d, Hello), hub), GoesTo(s, []), HelloSays(c.role, hub));
    Then(c, d, Fail(d), GoesTo(s, []), EndsWith([]));
  }

  lemma ServerCmiLeads(c: Conn, hub: Hub, m: Message)
    requires Works(c) && Settled(c) && c.state == CmiServerWait
    ensures Leads(c, OnServerCmi(c, hub, Some(m)), Hears(c, hub, m))
  {
    var s := CmiServerEvaluate;
    QuietState(c, s);
    var d := SetState(c, s);
    LeadsWorks(c, d, GoesTo(s, []));
    SendWorks(d, CmiMessage);
    var e := Send(d, CmiMessage).0;
    LeadsWorks(d, e, GoesTo(s, [CmiMessage]));
    assert OnServerCmi(c, hub, Some(m)) == if IsCmi(Some(m)) then ChooseHello(SetState(e, Hello), hub) else Fail(e);
    hide OnServerCmi, SetState, Send, ChooseHello, Fail, IsCmi, Leads, Works, HelloSays, ServerHello;
    Then(c, d, e, GoesTo(s, []), GoesTo(s, [CmiMessage]));
    if IsCmi(Some(m)) {
      HelloLeads(e, hub);
      Then(c, e, ChooseHello(SetState(e, Hello), hub), GoesTo(s, [CmiMessage]), HelloSays(Server, hub));
      ServerSays(hub);
    } else {
      FailEnds(e);
      Then(c, e, Fail(e), GoesTo(s, [CmiMessage]), EndsWith([]));
    }
  }

  lemma ServerSays(hub: Hub)
    ensures var o := HelloSays(Server, hub); Outcome(o.state, o.open, [CmiMessage] + o.said) == ServerHello(hub)
  {
  }

  lemma ProlongedLeads(c: Conn, hub: Hub)
    requires Works(c) && c.state == HelloReadyListen
    ensures var d := Send(if hub.waitAllowed then Arm(c, WaitForReady, HELLO_INIT) else c, READY);
            d.1 && Leads(c, d.0, GoesTo(HelloReadyListen, [READY]))
  {
    var d := if hub.waitAllowed then Arm(c, WaitForReady, HELLO_INIT) else c;
    SendWorks(d, READY);
    hide Send;
  }

  lemma ReadyHearsLeads(c: Conn, hub: Hub, m: Message)
    requires Works(c) && c.state == HelloReadyListen
    ensures Leads(c, OnReadyListen(c, hub, Some(m)), ReadyHears(c.role, m))
  {
    assert Leads(c, c, GoesTo(HelloReadyListen, []));
    var h := AsHello(Some(m));
    hide SetState, Send, Arm, AcceptHello, AbortHello, Fail, AsHello, Leads, Works, Accepts, Aborts, GoesTo, Rests;
    if h == None || h.value.phase == OtherPhase {
      AbortedLeads(c);
    } else if h.value.phase == Ready {
      AcceptLeads(c);
    } else if h.value.phase == Aborted {
      QuietState(c, HelloRemoteAbortDone);
    } else {
      ProlongedLeads(c, hub);
    }
  }

  lemma AnnouncedLeads(c: Conn, d: int)
    requires Works(c) && c.state == HelloPendingListen
    ensures var e := StopTimer(c).(lastWaiting := d);
            && Leads(c, AbortHello(e), Aborts()) && Leads(c, e, GoesTo(HelloPendingListen, []))
            && forall k, x :: Leads(c, Arm(e, k, x), GoesTo(HelloPendingListen, []))
  {
    var e := StopTimer(c).(lastWaiting := d);
    hide AbortHello;
    AbortedLeads(e);
    Then(c, e, AbortHello(e), GoesTo(c.state, []), Aborts());
  }

  lemma PeerPendingLeads(c: Conn, hello: HelloBody, m: Message)
    requires Works(c) && Settled(c) && c.state == HelloPendingListen && hello.phase == Pending && AsHello(Some(m)) == Some(hello)
    ensures Leads(c, OnPeerPending(c, hello), PendingHears(m))
  {
    hide AbortHello, Send, WaitingDuration, AsHello, Settled, Works, Leads, StopTimer, Arm, Rests;
    if hello.waiting.Some? && hello.prolongation == None {
      AnnouncedLeads(c, WaitingDuration(hello.waiting.value));
    } else {
      AbortedLeads(c);
      SendWorks(c, PENDING);
    }
  }

  lemma PendingHearsLeads(c: Conn, m: Message)
    requires Works(c) && Settled(c) && c.state == HelloPendingListen
    ensures Leads(c, OnPendingListen(c, Some(m)), PendingHears(m))
  {
    hide SetState, AbortHello, AsHello, WaitingDuration, OnPeerPending;
    AbortedLeads(c);
    QuietState(c, HelloRemoteAbortDone);
    AbortedLeads(StopTimer(c));
    Then(c, StopTimer(c), AbortHello(StopTimer(c)), GoesTo(c.state, []), Aborts());
    if AsHello(Some(m)).Some? && AsHello(Some(m)).value.phase == Pending { PeerPendingLeads(c, AsHello(Some(m)).value, m); }
  }

  lemma ProposalLeads(c: Conn, m: Message)
    requires Works(c) && Settled(c) && c.state == ProtServerListenProposal
    ensures Leads(c, OnProposal(c, Some(m)), ProposalHears(m))
  {
    hide SetState, Send, AbortProtocol, Fail, AsHandshake;
    AbortProtocolEnds(c, UnexpectedMessage);
    QuietState(c, Hello);
    SendsInto(StopTimer(c), SELECT, ProtServerListenConfirm);
  }

  lemma ConfirmLeads(c: Conn, m: Message)
    requires Works(c) && Settled(c) && c.state == ProtServerListenConfirm
    ensures Leads(c, OnConfirm(c, Some(m)), ConfirmHears(m))
  {
    hide SetState, StartPin, AbortProtocol, AsHandshake;
    AbortProtocolEnds(c, UnexpectedMessage);
    AbortProtocolEnds(c, SelectionMismatch);
    QuietState(c, Hello);
    PinLeads(StopTimer(c), ProtServerOk);
  }

  lemma ChoiceHeard(c: Conn, m: Message)
    requires Works(c) && Settled(c) && c.state == ProtClientListenChoice
    ensures Leads(c, OnChoice(c, Some(m)), ChoiceHears(m))
  {
    hide SetState, StartPin, AbortProtocol, AsHandshake, Send, Fail;
    AbortProtocolEnds(c, UnexpectedMessage);
    AbortProtocolEnds(c, SelectionMismatch);
    QuietState(c, Hello);
    SendWorks(StopTimer(c), SELECT);
    var d := Send(StopTimer(c), SELECT).0;
    PinLeads(d, ProtClientOk);
    Then(c, d, StartPin(SetState(d, ProtClientOk)), GoesTo(c.state, [SELECT]), GoesTo(PinCheckListen, [PIN_NONE]));
    assert [SELECT] + [PIN_NONE] == [SELECT, PIN_NONE];
  }

  lemma PinHeard(c: Conn, m: Message)
    requires Works(c) && Settled(c) && c.state == PinCheckListen
    ensures Leads(c, OnPin(c, Some(m)), Hears(c, Hub(true, true, true), m))
  {
    hide SetState, AsPin, Send, Fail;
    FailEnds(c);
    QuietState(c, PinCheckOk);
    var d := SetState(c, PinCheckOk);
    SendsInto(d, AccessRequestMessage, AccessMethodsRequest);
    Then(c, d, SetState(Arm(Send(d, AccessRequestMessage).0, WaitForReady, CMI_TIMEOUT), AccessMethodsRequest),
         GoesTo(PinCheckOk, []), GoesTo(AccessMethodsRequest, [AccessRequestMessage]));
  }

  /** The endpoint after an event, the peer's SHIP ID and the SPINE reader included. */
  predicate Ends(c: Conn, d: Conn, o: Outcome) {
    && d.state == o.state && d.open == o.open && d.sent == c.sent + o.said && Settled(d)
    && d.role == c.role && d.localId == c.localId && (d.shutdown ==> !d.timer.running)
    && (c.state == Complete || d.state != Complete ==> d.remoteId == c.remoteId && d.reader == c.reader)
  }

  lemma LeadsEnds(c: Conn, d: Conn, o: Outcome)
    requires Leads(c, d, o) && Resting(o.state) && Fitting(c.role, o.state) && (o.state == Complete ==> c.state == Complete)
    ensures Ends(c, d, o)
  {
  }

  lemma AccessHeard(c: Conn, m: Message)
    requires Works(c) && Settled(c) && c.state == AccessMethodsRequest
    ensures var d := OnAccess(c, Some(m));
            && Ends(c, d, AccessHears(c, m))
            && (d.state == Complete ==> AsAccess(Some(m)) == Methods(Some(d.remoteId)) && d.reader)
  {
    hide Send, Fail, AsAccess, Works, Finish;
    match AsAccess(Some(m))
    case BadAccess =>
      FailEnds(c);
      LeadsEnds(c, Fail(c), EndsWith([]));
    case Request =>
      SendWorks(c, AccessMethodsMessage(Some(c.localId)));
      hide Leads;
      LeadsEnds(c, Send(c, AccessMethodsMessage(Some(c.localId))).0, AccessHears(c, m));
    case Methods(None) =>
      FailEnds(c);
      LeadsEnds(c, Fail(c), EndsWith([]));
    case Methods(Some(id)) =>
      FailEnds(c);
      if c.remoteId in {"", id} {
        FinishEnds(c, id);
      } else {
        LeadsEnds(c, Fail(c), EndsWith([]));
      }
  }

  lemma FinishEnds(c: Conn, id: string)
    requires Works(c) && Settled(c) && c.state == AccessMethodsRequest
    ensures var d := Finish(c.(remoteId := id)); Ends(c, d, GoesTo(Complete, [])) && d.remoteId == id && d.reader
  {
  }

  lemma WaitingHeard(c: Conn, hub: Hub, m: Message)
    requires Works(c) && Settled(c)
    ensures var d := OnWaiting(c, hub, Some(m));
            && Ends(c, d, Hears(c, hub, m))
            && (c.state != Complete && d.state == Complete ==> AsAccess(Some(m)) == Methods(Some(d.remoteId)) && d.reader)
  {
    var o := Hears(c, hub, m);
    var d := OnWaiting(c, hub, Some(m));
    if c.state == AccessMethodsRequest {
      AccessHeard(c, m);
      hide OnAccess;
    } else {
      HearsFits(c, hub, m);
      LeadsEnds(c, d, o) by { WaitingLeads(c, hub, m); }
      hide OnWaiting, Hears;
    }
  }

  lemma HearsFits(c: Conn, hub: Hub, m: Message)
    requires Settled(c) && c.state != AccessMethodsRequest
    ensures var o := Hears(c, hub, m);
            Resting(o.state) && Fitting(c.role, o.state) && (o.state == Complete ==> c.state == Complete)
  {
    hide AsPin, IsCmi, ServerHello, ReadyHears, PendingHears, ProposalHears, ConfirmHears, ChoiceHears;
  }

  lemma ChoiceWaits(c: Conn, hub: Hub, m: Message)
    requires Works(c) && Settled(c) && c.state == ProtClientListenChoice
    ensures Leads(c, OnWaiting(c, hub, Some(m)), ChoiceHears(m))
  {
    var d := StopTimer(c);
    assert Works(d) && Settled(d) && d.state == c.state && Leads(c, d, GoesTo(c.state, []));
    hide Works, Settled, Leads, OnChoice, ChoiceHears, StopTimer, Rests;
    ChoiceHeard(d, m);
    Then(c, d, OnChoice(d, Some(m)), GoesTo(c.state, []), ChoiceHears(m));
  }

  /** In every other state a message changes nothing. */
  lemma OthersIgnore(c: Conn, hub: Hub, m: Message)
    requires Works(c) && !Waiting(c.state)
    ensures Leads(c, OnWaiting(c, hub, Some(m)), Hears(c, hub, m))
  {
  }

  lemma HelloWaits(c: Conn, hub: Hub, m: Message)
    requires Works(c) && Settled(c)
    ensures c.state == CmiClientWait ==> Leads(c, OnWaiting(c, hub, Some(m)), Hears(c, hub, m))
    ensures c.state == CmiServerWait ==> Leads(c, OnWaiting(c, hub, Some(m)), Hears(c, hub, m))
    ensures c.state == HelloReadyListen ==> Leads(c, OnWaiting(c, hub, Some(m)), Hears(c, hub, m))
    ensures c.state == HelloPendingListen ==> Leads(c, OnWaiting(c, hub, Some(m)), Hears(c, hub, m))
  {
    hide Works, Settled, Leads, OnClientCmi, OnServerCmi, OnReadyListen, OnPendingListen, ReadyHears, PendingHears, Rests;
    if c.state == CmiClientWait { ClientCmiLeads(c, hub, m); }
    if c.state == CmiServerWait { ServerCmiLeads(c, hub, m); }
    if c.state == HelloReadyListen { ReadyHearsLeads(c, hub, m); }
    if c.state == HelloPendingListen { PendingHearsLeads(c, m); }
  }

  lemma ProtocolWaits(c: Conn, hub: Hub, m: Message)
    requires Works(c) && Settled(c)
    ensures c.state == ProtServerListenProposal ==> Leads(c, OnWaiting(c, hub, Some(m)), Hears(c, hub, m))
    ensures c.state == ProtServerListenConfirm ==> Leads(c, OnWaiting(c, hub, Some(m)), Hears(c, hub, m))
    ensures c.state == ProtClientListenChoice ==> Leads(c, OnWaiting(c, hub, Some(m)), Hears(c, hub, m))
    ensures c.state == PinCheckListen ==> Leads(c, OnWaiting(c, hub, Some(m)), Hears(c, hub, m))
  {
    hide Works, Settled, Leads, OnProposal, OnConfirm, OnChoice, OnPin, ProposalHears, ConfirmHears, ChoiceHears, Rests;
    if c.state == ProtServerListenProposal { ProposalLeads(c, m); }
    if c.state == ProtServerListenConfirm { ConfirmLeads(c, m); }
    if c.state == ProtClientListenChoice { ChoiceWaits(c, hub, m); }
    if c.state == PinCheckListen { PinHeard(c, m); }
  }

  lemma WaitingLeads(c: Conn, hub: Hub, m: Message)
    requires Works(c) && Settled(c) && c.state != AccessMethodsRequest
    ensures Leads(c, OnWaiting(c, hub, Some(m)), Hears(c, hub, m))
  {
    hide OnWaiting, Hears, Works, Leads, Settled;
    HelloWaits(c, hub, m);
    ProtocolWaits(c, hub, m);
    if !Waiting(c.state) { OthersIgnore(c, hub, m); }
  }

  // ---------------------------------------------------------------- the other events

  lemma ProtocolTimeout(c: Conn, hub: Hub)
    requires Works(c)
    requires c.state == ProtServerListenProposal || c.state == ProtServerListenConfirm || c.state == ProtClientListenChoice
    ensures Leads(c, OnTimeout(c, hub), TimesOut(c, hub))
  {
    var d := StopTimer(c);
    assert Works(d) && Leads(c, d, GoesTo(c.state, []));
    hide AbortProtocol, Leads, Works;
    TimedOutEnds(c, d);
  }

  lemma PlainTimeout(c: Conn, hub: Hub)
    requires Works(c)
    requires c.state == CmiClientWait || c.state == CmiServerWait || c.state == PinCheckListen || c.state == AccessMethodsRequest
    ensures Leads(c, OnTimeout(c, hub), TimesOut(c, hub))
  {
    var d := StopTimer(c);
    assert Works(d) && Leads(c, d, GoesTo(c.state, []));
    hide Fail, Leads, Works;
    FailEnds(d);
    Then(c, d, Fail(d), GoesTo(c.state, []), EndsWith([]));
  }

  lemma ReadyTimeout(c: Conn, hub: Hub)
    requires Works(c) && (c.state == HelloReadyListen || !Waiting(c.state))
    ensures Leads(c, OnTimeout(c, hub), TimesOut(c, hub))
  {
    var d := StopTimer(c);
    assert Works(d) && Leads(c, d, GoesTo(c.state, []));
    hide AbortHello, Leads, Works;
    AbortedLeads(d);
    Then(c, d, AbortHello(d), GoesTo(c.state, []), Aborts());
  }

  lemma TimeoutLeads(c: Conn, hub: Hub)
    requires Works(c) && Settled(c) && c.state != HelloPendingListen
    ensures Leads(c, OnTimeout(c, hub), TimesOut(c, hub))
  {
    hide OnTimeout, TimesOut, Leads, Works, Settled;
    if c.state == ProtServerListenProposal || c.state == ProtServerListenConfirm || c.state == ProtClientListenChoice {
      ProtocolTimeout(c, hub);
    } else if c.state == HelloReadyListen || !Waiting(c.state) {
      ReadyTimeout(c, hub);
    } else {
      PlainTimeout(c, hub);
    }
  }

  lemma TimedOutEnds(c: Conn, d: Conn)
    requires Works(d) && Leads(c, d, GoesTo(c.state, []))
    ensures Leads(c, AbortProtocol(d, Timedout), EndsWith([HandshakeErrorMessage(Timedout)]))
  {
    AbortProtocolEnds(d, Timedout);
    Then(c, d, AbortProtocol(d, Timedout), GoesTo(c.state, []), EndsWith([HandshakeErrorMessage(Timedout)]));
  }

  lemma PendingTimeoutLeads(c: Conn, hub: Hub)
    requires Works(c) && Settled(c) && c.state == HelloPendingListen
    ensures Leads(c, OnTimeout(c, hub), TimesOut(c, hub))
  {
    var d := StopTimer(c);
    SendWorks(d, PROLONG);
    AbortedLeads(d);
    assert Leads(c, d, GoesTo(c.state, []));
    Then(c, d, AbortHello(d), GoesTo(c.state, []), Aborts());
    hide Fail, AbortHello, Send;
  }

  lemma TimeoutEnds(c: Conn, hub: Hub)
    requires Works(c) && Settled(c)
    ensures Ends(c, OnTimeout(c, hub), TimesOut(c, hub))
  {
    TimesOutFits(c, hub);
    hide Works, Settled, OnTimeout, TimesOut, Leads;
    if c.state == HelloPendingListen { PendingTimeoutLeads(c, hub); } else { TimeoutLeads(c, hub); }
    LeadsEnds(c, OnTimeout(c, hub), TimesOut(c, hub));
  }

  lemma TimesOutFits(c: Conn, hub: Hub)
    requires Works(c) && Settled(c)
    ensures var o := TimesOut(c, hub);
            Resting(o.state) && Fitting(c.role, o.state) && (o.state == Complete ==> c.state == Complete)
  {
  }

  lemma ApproveEnds(c: Conn, hub: Hub)
    requires Works(c) && Settled(c) && c.state == HelloPendingListen
    ensures Ends(c, OnApprove(c, hub), if hub.paired && hub.waitAllowed then GoesTo(ProtServerListenProposal, [READY])
                                       else GoesTo(HelloAbortDone, [READY, ABORTED]))
  {
    QuietState(c, HelloReadyInit);
    var a := Enter(c, HelloReadyInit);
    LeadsWorks(c, a, GoesTo(HelloReadyInit, []));
    QuietState(a, HelloReadyInit);
    var b := StopTimer(a);
    assert c.role == Server && c.open;
    assert [READY] + [ABORTED] == [READY, ABORTED] && [READY] + [] == [READY];
    hide Enter, StopTimer, SendReady, AcceptHello, AbortHello, Leads, Works, Settled, Ends;
    Then(c, a, b, GoesTo(HelloReadyInit, []), GoesTo(HelloReadyInit, []));
    LeadsWorks(c, b, GoesTo(HelloReadyInit, []));
    ReadyLeads(b);
    var d := SendReady(b);
    Then(c, b, d, GoesTo(HelloReadyInit, []), GoesTo(HelloReadyListen, [READY]));
    LeadsWorks(c, d, GoesTo(HelloReadyListen, [READY]));
    assert d.open by { LeadsOpen(c, d, GoesTo(HelloReadyListen, [READY])); }
    if hub.paired && hub.waitAllowed {
      AcceptLeads(d);
      Then(c, d, AcceptHello(d), GoesTo(HelloReadyListen, [READY]), Accepts(Server));
      LeadsEnds(c, AcceptHello(d), GoesTo(ProtServerListenProposal, [READY]));
    } else {
      AbortedLeads(d);
      Then(c, d, AbortHello(d), GoesTo(HelloReadyListen, [READY]), Aborts());
      LeadsEnds(c, AbortHello(d), GoesTo(HelloAbortDone, [READY, ABORTED]));
    }
  }

  lemma LeadsOpen(c: Conn, d: Conn, o: Outcome)
    requires Leads(c, d, o)
    ensures d.open == o.open
  {
  }

  lemma UserAbortEnds(c: Conn)
    requires Works(c) && Settled(c) && c.state in {HelloPendingListen, HelloReadyListen}
    ensures Ends(c, OnAbort(c), Aborts())
  {
    QuietState(c, HelloAbort);
    var a := Enter(c, HelloAbort);
    QuietState(a, HelloAbort);
    var b := StopTimer(a);
    hide Enter, SendAborted;
    Then(c, a, b, GoesTo(HelloAbort, []), GoesTo(HelloAbort, []));
    AbortedLeads(b);
    Then(c, b, SendAborted(b), GoesTo(HelloAbort, []), Aborts());
  }

  lemma StateOnly(c: Conn, s: State)
    ensures var d := SetState(c, s);
            && d.open == c.open && d.shutdown == c.shutdown && d.sent == c.sent && d.localId == c.localId
            && d.remoteId == c.remoteId && d.reader == c.reader
  {
  }

  lemma ErrorEnds(c: Conn)
    requires Works(c) && Settled(c) && c.state != CmiInitStart
    ensures Ends(c, OnConnectionError(c), Outcome(Breaks(c.state), false, []))
  {
    StaysResting(c.state);
    assert c.state != HelloAbort;
    hide Works, Waiting, Resting, SetState, Fitting;
    StateOnly(c.(open := false), HelloRejected);
    StateOnly(c.(open := false), Error);
  }

  lemma StaysResting(s: State)
    requires Resting(s)
    ensures Resting(Breaks(s)) && forall role :: Fitting(role, s) ==> Fitting(role, Breaks(s))
  {
  }

  lemma CloseEnds(c: Conn, safe: bool)
    requires Works(c) && Settled(c) && c.state != CmiInitStart
    ensures Ends(c, OnClose(c, safe), Table(c, Event(Close(safe), Hub(true, true, true), [])))
  {
  }

  lemma RunEnds(c: Conn)
    requires Works(c) && Settled(c) && c.state == CmiInitStart
    ensures Ends(c, OnRun(c), Table(c, Event(Run, Hub(true, true, true), [])))
  {
  }

  lemma CloseMessageEnds(c: Conn, hub: Hub, p: ClosePhase)
    requires Works(c) && Settled(c) && c.state != CmiInitStart
    ensures Ends(c, OnMessage(c, hub, CloseMessage(p)), Table(c, Event(Receive(CloseMessage(p)), hub, [])))
  {
    SendWorks(c, CloseMessage(Confirm));
    hide Send, OnWaiting;
  }

  lemma MessageEnds(c: Conn, hub: Hub, m: Message)
    requires Works(c) && Settled(c) && c.state != CmiInitStart
    ensures var d := OnMessage(c, hub, m);
            && Ends(c, d, Table(c, Event(Receive(m), hub, [])))
            && (c.state != Complete && d.state == Complete ==> AsAccess(Some(m)) == Methods(Some(d.remoteId)) && d.reader)
  {
    if m.CloseMessage? {
      CloseMessageEnds(c, hub, m.closePhase);
      assert OnMessage(c, hub, m).state == c.state;
    } else {
      hide OnWaiting, Hears, Works, Settled, Ends, AsAccess;
      WaitingHeard(c, hub, m);
    }
  }

  /**
   While every write succeeds, an event leaves the endpoint where the table says and sends what it says, and
   completing a handshake takes over the peer's SHIP ID and hands over to SPINE.
   */
  lemma TableExact(c: Conn, e: Event)
    requires Settled(c) && c.open && Enabled(c, e) && forall i | 0 <= i < |e.net| :: e.net[i]
    ensures var d := Step(c, e);
            && Ends(c, d, Table(c, e))
            && (c.state != Complete && d.state == Complete ==>
                  e.kind.Receive? && AsAccess(Some(e.kind.m)) == Methods(Some(d.remoteId)) && d.reader)
  {
    var b := c.(net := e.net);
    assert Works(b) && Settled(b) && Table(b, e) == Table(c, e);
    hide Works, Settled, OnRun, OnMessage, OnTimeout, OnApprove, OnAbort, OnConnectionError, OnClose, Hears, TimesOut;
    match e.kind
    case Run => RunEnds(b);
    case Receive(m) => MessageEnds(b, e.hub, m);
    case SpineData =>
    case Timeout => TimeoutEnds(b, e.hub);
    case Approve => if c.state == HelloPendingListen { ApproveEnds(b, e.hub); }
    case AbortByUser => if c.state in {HelloPendingListen, HelloReadyListen} { UserAbortEnds(b); }
    case ConnectionError => ErrorEnds(b);
    case Close(safe) => CloseEnds(b, safe);
  }
}
