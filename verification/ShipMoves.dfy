/**
 What one expected message does to an end whose writes succeed: the state it reaches and exactly what it
 sends. These are the single steps of the common script of a client and a server.
 */
module ShipMoves {
  import opened Basics
  import opened ShipModel
  import opened ShipEndpoint
  import opened ShipOrder
  import W = ShipWire

  /** Nothing has failed or been aborted. */
  predicate Healthy(p: seq<State>) {
    forall i | 0 <= i < |p| :: !Dead(p[i])
  }

  /** c has become d, entered s and sent exactly out; all is well. */
  predicate Moves(c: Conn, d: Conn, s: State, out: seq<Message>) {
    && d.role == c.role && d.localId == c.localId && d.state == s && d.open && d.sent == c.sent + out
    && Healthy(d.path) && d.net == []
  }

  predicate Ready(c: Conn) {
    c.open && Healthy(c.path) && c.net == []
  }

  lemma SetMoves(c: Conn, s: State)
    requires Ready(c) && !Dead(s)
    ensures Moves(c, SetState(c, s), s, []) && SetState(c, s).remoteId == c.remoteId
  {
  }

  lemma EnterMoves(c: Conn, s: State)
    requires Ready(c) && !Dead(s)
    ensures Moves(c, Enter(c, s), s, []) && Enter(c, s).remoteId == c.remoteId
  {
  }

  lemma SendMoves(c: Conn, m: Message)
    requires Ready(c)
    ensures Send(c, m).1 && Write(c, m).1 && Send(c, m).0 == Write(c, m).0 == c.(sent := c.sent + [m])
  {
  }

  lemma SendReadyMoves(c: Conn)
    requires Ready(c)
    ensures Moves(c, SendReady(c), HelloReadyListen, [READY]) && SendReady(c).remoteId == c.remoteId
  {
  }

  lemma ChooseReadyMoves(c: Conn, hub: Hub)
    requires Ready(c) && (hub.paired || hub.autoAccept || c.role == Client)
    ensures Moves(c, ChooseHello(c, hub), HelloReadyListen, [READY]) && ChooseHello(c, hub).remoteId == c.remoteId
  {
    hide SetState, SendReady, SendPending, Healthy;
    SetMoves(c, HelloReadyInit);
    SendReadyMoves(SetState(c, HelloReadyInit));
  }

  lemma ChoosePendingMoves(c: Conn, hub: Hub)
    requires Ready(c) && !(hub.paired || hub.autoAccept || c.role == Client) && hub.waitAllowed
    ensures Moves(c, ChooseHello(c, hub), HelloPendingListen, [PENDING]) && ChooseHello(c, hub).remoteId == c.remoteId
  {
    hide SetState, Send, Fail, AbortHello, SendReady, Healthy;
    SetMoves(c, HelloPendingInit);
    var d := SetState(c, HelloPendingInit);
    SendMoves(d, PENDING);
    SetMoves(d.(sent := d.sent + [PENDING]), HelloPendingListen);
  }

  function Received(c: Conn, hub: Hub, m: Message): Conn {
    Step(c, Event(Incoming(m), hub, []))
  }

  lemma RunMoves(c: Conn, hub: Hub)
    requires c.open && Healthy(c.path) && c.state == CmiInitStart
    ensures var d := Step(c, Event(Run, hub, []));
            Moves(c, d, if c.role == Client then CmiClientWait else CmiServerWait,
                  if c.role == Client then [CmiMessage] else []) && d.remoteId == c.remoteId
  {
    hide SetState, Write, Fail, Healthy;
    var d := c.(net := []);
    if c.role == Client {
      SetMoves(d, CmiClientSend);
      var e := SetState(d, CmiClientSend);
      SendMoves(e, CmiMessage);
      SetMoves(e.(sent := e.sent + [CmiMessage]), CmiClientWait);
    } else {
      SetMoves(d, CmiServerWait);
    }
  }

  lemma ClientCmiMoves(c: Conn, hub: Hub)
    requires c.open && Healthy(c.path) && c.state == CmiClientWait && c.role == Client
    ensures Moves(c, Received(c, hub, CmiMessage), HelloReadyListen, [READY])
    ensures Received(c, hub, CmiMessage).remoteId == c.remoteId
  {
    hide SetState, Write, Fail, ChooseHello, Healthy;
    var d := c.(net := []);
    SetMoves(d, CmiClientEvaluate);
    var e := SetState(d, CmiClientEvaluate);
    SetMoves(e, Hello);
    ChooseReadyMoves(SetState(e, Hello), hub);
  }

  lemma ServerCmiMoves(c: Conn, hub: Hub)
    requires c.open && Healthy(c.path) && c.state == CmiServerWait && c.role == Server
    requires hub.paired || hub.autoAccept || hub.waitAllowed
    ensures var ready := hub.paired || hub.autoAccept;
            Moves(c, Received(c, hub, CmiMessage), if ready then HelloReadyListen else HelloPendingListen,
                  [CmiMessage, if ready then READY else PENDING])
    ensures Received(c, hub, CmiMessage).remoteId == c.remoteId
  {
    hide SetState, Write, Fail, ChooseHello, Healthy;
    var d := c.(net := []);
    SetMoves(d, CmiServerEvaluate);
    var e := SetState(d, CmiServerEvaluate);
    SendMoves(e, CmiMessage);
    var f := e.(sent := e.sent + [CmiMessage]);
    SetMoves(f, Hello);
    if hub.paired || hub.autoAccept {
      ChooseReadyMoves(SetState(f, Hello), hub);
    } else {
      ChoosePendingMoves(SetState(f, Hello), hub);
    }
  }

  lemma ReadyListenMoves(c: Conn, hub: Hub)
    requires c.open && Healthy(c.path) && c.state == HelloReadyListen
    ensures Moves(c, Received(c, hub, PENDING), HelloReadyListen, [])
    ensures Moves(c, Received(c, hub, PROLONG), HelloReadyListen, [READY])
    ensures Received(c, hub, PENDING).remoteId == c.remoteId && Received(c, hub, PROLONG).remoteId == c.remoteId
  {
  }

  lemma AcceptMoves(c: Conn)
    requires Ready(c)
    ensures Moves(c, AcceptHello(c), if c.role == Client then ProtClientListenChoice else ProtServerListenProposal,
                  if c.role == Client then [ANNOUNCE] else [])
    ensures AcceptHello(c).remoteId == c.remoteId
  {
    hide SetState, Send, Fail, Healthy;
    SetMoves(c, HelloOk);
    var d := SetState(c, HelloOk);
    if c.role == Client {
      SetMoves(d, ProtClientInit);
      var e := SetState(d, ProtClientInit);
      SendMoves(e, ANNOUNCE);
      SetMoves(e.(sent := e.sent + [ANNOUNCE]), ProtClientListenChoice);
    } else {
      SetMoves(d, ProtServerInit);
      SetMoves(Arm(SetState(d, ProtServerInit), WaitForReady, CMI_TIMEOUT), ProtServerListenProposal);
    }
  }

  lemma ReadyMoves(c: Conn, hub: Hub)
    requires c.open && Healthy(c.path) && c.state == HelloReadyListen
    ensures Moves(c, Received(c, hub, READY), if c.role == Client then ProtClientListenChoice else ProtServerListenProposal,
                  if c.role == Client then [ANNOUNCE] else [])
    ensures Received(c, hub, READY).remoteId == c.remoteId
  {
    hide AcceptHello, AbortHello, Send, SetState, Fail, Healthy;
    AcceptMoves(c.(net := []));
  }

  lemma PendingListenMoves(c: Conn, hub: Hub)
    requires c.open && Healthy(c.path) && c.state == HelloPendingListen
    ensures Moves(c, Received(c, hub, READY), HelloPendingListen, [])
    ensures Received(c, hub, READY).remoteId == c.remoteId
  {
  }

  lemma ProlongMoves(c: Conn, hub: Hub)
    requires c.open && Healthy(c.path) && c.state == HelloPendingListen && hub.waitAllowed
    ensures var d := Step(c, Event(Timeout, hub, [])); Moves(c, d, HelloPendingListen, [PROLONG]) && d.remoteId == c.remoteId
  {
  }

  lemma ApproveMoves(c: Conn, hub: Hub)
    requires c.open && Healthy(c.path) && c.state == HelloPendingListen && c.role == Server && hub.paired && hub.waitAllowed
    ensures var d := Step(c, Event(Approve, hub, [])); Moves(c, d, ProtServerListenProposal, [READY]) && d.remoteId == c.remoteId
  {
    hide Enter, SendReady, AcceptHello, AbortHello, Healthy;
    var d := c.(net := []);
    EnterMoves(d, HelloReadyInit);
    var e := StopTimer(Enter(d, HelloReadyInit));
    SendReadyMoves(e);
    AcceptMoves(SendReady(e));
  }

  lemma StartPinMoves(c: Conn)
    requires Ready(c)
    ensures Moves(c, StartPin(c), PinCheckListen, [PIN_NONE]) && StartPin(c).remoteId == c.remoteId
  {
    hide SetState, Send, Fail, Healthy;
    SetMoves(c, PinCheckInit);
    var d := SetState(c, PinCheckInit);
    SendMoves(d, PIN_NONE);
    SetMoves(d.(sent := d.sent + [PIN_NONE]), PinCheckListen);
  }

  lemma ProposalMoves(c: Conn, hub: Hub)
    requires c.open && Healthy(c.path) && c.state == ProtServerListenProposal
    ensures Moves(c, Received(c, hub, ANNOUNCE), ProtServerListenConfirm, [SELECT])
    ensures Received(c, hub, ANNOUNCE).remoteId == c.remoteId
  {
    hide SetState, Send, Fail, AbortProtocol, Healthy;
    var d := StopTimer(c.(net := []));
    SendMoves(d, SELECT);
    SetMoves(Arm(d.(sent := d.sent + [SELECT]), WaitForReady, CMI_TIMEOUT), ProtServerListenConfirm);
  }

  lemma ConfirmMoves(c: Conn, hub: Hub)
    requires c.open && Healthy(c.path) && c.state == ProtServerListenConfirm
    ensures Moves(c, Received(c, hub, SELECT), PinCheckListen, [PIN_NONE])
    ensures Received(c, hub, SELECT).remoteId == c.remoteId
  {
    hide SetState, StartPin, AbortProtocol, Healthy;
    var d := StopTimer(c.(net := []));
    SetMoves(d, ProtServerOk);
    StartPinMoves(SetState(d, ProtServerOk));
  }

  lemma ChoiceMoves(c: Conn, hub: Hub)
    requires c.open && Healthy(c.path) && c.state == ProtClientListenChoice
    ensures Moves(c, Received(c, hub, SELECT), PinCheckListen, [SELECT, PIN_NONE])
    ensures Received(c, hub, SELECT).remoteId == c.remoteId
  {
    hide SetState, Send, Fail, StartPin, AbortProtocol, Healthy;
    var d := StopTimer(StopTimer(c.(net := [])));
    SendMoves(d, SELECT);
    var e := d.(sent := d.sent + [SELECT]);
    SetMoves(e, ProtClientOk);
    StartPinMoves(SetState(e, ProtClientOk));
  }

  lemma PinMoves(c: Conn, hub: Hub)
    requires c.open && Healthy(c.path) && c.state == PinCheckListen
    ensures Moves(c, Received(c, hub, PIN_NONE), AccessMethodsRequest, [AccessRequestMessage])
    ensures Received(c, hub, PIN_NONE).remoteId == c.remoteId
  {
    hide SetState, Send, Fail, Healthy;
    var d := c.(net := []);
    SetMoves(d, PinCheckOk);
    var e := SetState(d, PinCheckOk);
    SendMoves(e, AccessRequestMessage);
    SetMoves(Arm(e.(sent := e.sent + [AccessRequestMessage]), WaitForReady, CMI_TIMEOUT), AccessMethodsRequest);
  }

  lemma AccessRequestMoves(c: Conn, hub: Hub)
    requires c.open && Healthy(c.path) && c.state == AccessMethodsRequest
    ensures Moves(c, Received(c, hub, AccessRequestMessage), AccessMethodsRequest, [AccessMethodsMessage(Some(c.localId))])
    ensures Received(c, hub, AccessRequestMessage).remoteId == c.remoteId
  {
  }

  /** The SHIP ID that arrives for id is the one known for the peer, or none is known. */
  predicate Knows(c: Conn, id: string) {
    var arriving := W.ArrivingId(id);
    arriving.Some? && (c.remoteId == "" || c.remoteId == arriving.value)
  }

  lemma FinishMoves(c: Conn, hub: Hub, id: string)
    requires c.open && Healthy(c.path) && c.state == AccessMethodsRequest && Knows(c, id)
    ensures Moves(c, Received(c, hub, AccessMethodsMessage(Some(id))), Complete, [])
    ensures Knows(Received(c, hub, AccessMethodsMessage(Some(id))), id)
  {
    hide SetState, Fail, Healthy, W.ArrivingId;
    var d := c.(net := [], remoteId := W.ArrivingId(id).value);
    SetMoves(d, Approved);
    SetMoves(StopTimer(SetState(d, Approved).(reader := true)), Complete);
  }

  /** A hello that comes when the server already expects the protocol proposal ends the handshake. */
  lemma LateReadyFails(c: Conn, hub: Hub)
    requires c.state == ProtServerListenProposal
    ensures Received(c, hub, READY).state == Error && Received(c, hub, READY).shutdown
  {
  }
}
