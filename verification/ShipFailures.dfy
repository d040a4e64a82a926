/**
 What becomes of a handshake when the data connection does not work, when a "ready" is refused, and when the
 user gives up.
 */
module ShipFailures {
  import opened Basics
  import opened ShipModel
  import opened ShipEndpoint
  import opened ShipOrder
  import T = ShipTable

  // ---------------------------------------------------------------- nothing can be written

  /** The next writes of the event fail: the data connection is closed, or refuses them. */
  predicate Broken(c: Conn, n: nat) {
    && (c.shutdown ==> !c.open) && (c.state == Error ==> c.shutdown)
    && (c.open ==> |c.net| >= n && forall i | 0 <= i < n :: !c.net[i])
  }

  /** Nothing was sent, and the handshake has ended. */
  predicate Dies(c: Conn, d: Conn) {
    !d.timer.running
    && d == c.(state := Error, open := false, shutdown := true, timer := d.timer, lastWaiting := d.lastWaiting, net := d.net,
               path := d.path)
  }

  /** Nothing was sent, and nothing else has happened to the connection. */
  predicate Moves(c: Conn, d: Conn, s: State) {
    d == c.(state := s, timer := d.timer, lastWaiting := d.lastWaiting, path := d.path)
  }

  lemma QuietMoves(c: Conn, s: State)
    ensures Moves(c, SetState(c, s), s) && Moves(c, Enter(c, s), s) && Moves(c, StopTimer(c), c.state)
  {
  }

  /** The connection is as broken as before. */
  lemma StopsBroken(c: Conn)
    requires Broken(c, 2)
    ensures Moves(c, StopTimer(c), c.state) && Broken(StopTimer(c), 2) && Broken(StopTimer(c), 1)
    ensures Broken(c, 1) && (c.shutdown ==> !c.open) && StopTimer(StopTimer(c)) == StopTimer(c)
  {
  }

  lemma StateBroken(c: Conn, s: State)
    requires Broken(c, 2) && s != Error
    ensures Moves(c, SetState(c, s), s) && Broken(SetState(c, s), 2) && Broken(SetState(c, s), 1)
    ensures Broken(c, 1) && (c.shutdown ==> !c.open)
  {
    QuietMoves(c, s);
    hide SetState;
  }

  lemma MovedDies(c: Conn, d: Conn, e: Conn, s: State)
    requires Moves(c, d, s) && Dies(d, e)
    ensures Dies(c, e)
  {
  }

  lemma FailDies(c: Conn)
    requires c.shutdown ==> !c.open
    ensures Dies(c, Fail(c))
  {
  }

  /** A failed write leaves the endpoint in its state, and may close the connection. */
  predicate Refused(c: Conn, d: Conn) {
    && d == c.(open := d.open, shutdown := d.shutdown, timer := d.timer, net := d.net)
    && (d.shutdown ==> !d.open) && (d.state == Error ==> d.shutdown) && (Broken(c, 2) ==> Broken(d, 1))
  }

  lemma WriteRefused(c: Conn, m: Message)
    requires Broken(c, 1)
    ensures !Send(c, m).1 && Refused(c, Send(c, m).0) && !Write(c, m).1 && Refused(c, Write(c, m).0)
  {
  }

  lemma RefusedDies(c: Conn, d: Conn)
    requires Refused(c, d)
    ensures Dies(c, Fail(d)) && d.sent == c.sent && d.state == c.state && d.role == c.role
  {
    FailDies(d);
    hide Fail;
  }

  lemma SendFails(c: Conn, m: Message)
    requires Broken(c, 1)
    ensures var d := Send(c, m);
            !d.1 && d.0.state == c.state && d.0.sent == c.sent && Refused(c, d.0) && (Broken(c, 2) ==> Broken(d.0, 1)) && Dies(c, Fail(d.0))
    ensures var d := Write(c, m); !d.1 && Dies(c, Fail(d.0))
  {
    WriteRefused(c, m);
    hide Send, Write, Fail;
    RefusedDies(c, Send(c, m).0);
    RefusedDies(c, Write(c, m).0);
  }

  lemma AbortProtocolDies(c: Conn, reason: AbortReason)
    requires Broken(c, 1)
    ensures Dies(c, AbortProtocol(c, reason))
  {
    QuietMoves(c, Error);
    var d := Send(StopTimer(c), HandshakeErrorMessage(reason)).0;
    SendFails(StopTimer(c), HandshakeErrorMessage(reason));
    QuietMoves(d, Error);
    hide Send, SetState;
  }

  lemma AbortedDies(c: Conn)
    requires Broken(c, 1)
    ensures Dies(c, SendAborted(c)) && Dies(c, AbortHello(c))
  {
    SendAbortedDies(c);
    QuietMoves(c, HelloAbort);
    var d := SetState(c, HelloAbort);
    SendAbortedDies(d);
    hide SendAborted, SetState;
  }

  lemma SendAbortedDies(c: Conn)
    requires Broken(c, 1)
    ensures Dies(c, SendAborted(c))
  {
    QuietMoves(c, HelloAbort);
    SendFails(StopTimer(c), ABORTED);
    hide Send, SetState, Fail;
  }

  lemma ReadyDies(c: Conn)
    requires Broken(c, 2)
    ensures Dies(c, SendReady(c))
  {
    SendFails(c, READY);
    var d := Send(c, READY).0;
    AbortedDies(d);
    hide Send, SetState, AbortHello;
  }

  lemma HelloDies(c: Conn, hub: Hub)
    requires Broken(c, 2)
    ensures Dies(c, ChooseHello(c, hub)) && Dies(c, ChooseHello(SetState(c, Hello), hub))
  {
    QuietMoves(c, Hello);
    ChoiceDies(c, hub);
    ChoiceDies(SetState(c, Hello), hub);
    hide SetState, ChooseHello;
  }

  lemma ChoiceDies(c: Conn, hub: Hub)
    requires Broken(c, 2)
    ensures Dies(c, ChooseHello(c, hub))
  {
    hide Broken, Dies, Moves, SetState, SendReady, Send, Fail, AbortHello;
    if hub.paired || hub.autoAccept || c.role == Client {
      StateBroken(c, HelloReadyInit);
      var d := SetState(c, HelloReadyInit);
      ReadyDies(d);
      MovedDies(c, d, SendReady(d), HelloReadyInit);
    } else {
      StateBroken(c, HelloPendingInit);
      var d := SetState(c, HelloPendingInit);
      SendFails(d, PENDING);
      MovedDies(c, d, Fail(Send(d, PENDING).0), HelloPendingInit);
    }
  }

  /** What an event does in a state that has nothing to send, and in one that has. */
  predicate Falls(c: Conn, d: Conn, o: T.Outcome) {
    if o.said != [] || o.state == Error then Dies(c, d)
    else d.state == o.state && d.open == c.open && d.sent == c.sent && d.role == c.role && d.shutdown == c.shutdown
         && (d.shutdown ==> !d.open)
  }

  lemma DiesFalls(c: Conn, d: Conn, o: T.Outcome)
    requires Dies(c, d) && (o.said != [] || o.state == Error)
    ensures Falls(c, d, o)
  {
  }

  lemma MovesFalls(c: Conn, d: Conn, s: State)
    requires Moves(c, d, s) && (c.shutdown ==> !c.open) && s != Error
    ensures Falls(c, d, T.GoesTo(s, []))
  {
  }

  lemma MovesTwice(c: Conn, d: Conn, e: Conn, s: State, r: State)
    requires Moves(c, d, s) && Moves(d, e, r)
    ensures Moves(c, e, r)
  {
  }

  lemma MovedBroken(c: Conn, d: Conn, s: State, n: nat)
    requires Moves(c, d, s) && Broken(c, n) && s != Error
    ensures Broken(d, n)
  {
  }

  lemma AcceptFalls(c: Conn)
    requires Broken(c, 1)
    ensures Falls(c, AcceptHello(c), T.Accepts(c.role))
  {
    var d := SetState(c, HelloOk);
    QuietMoves(c, HelloOk);
    if c.role == Server {
      var e := SetState(d, ProtServerInit);
      QuietMoves(d, ProtServerInit);
      var f := Arm(e, WaitForReady, CMI_TIMEOUT);
      assert Moves(e, f, ProtServerInit);
      QuietMoves(f, ProtServerListenProposal);
      hide Moves, Broken, SetState, Falls;
      MovesTwice(c, d, e, HelloOk, ProtServerInit);
      MovesTwice(c, e, f, ProtServerInit, ProtServerInit);
      MovesTwice(c, f, SetState(f, ProtServerListenProposal), ProtServerInit, ProtServerListenProposal);
      assert c.shutdown ==> !c.open by { BrokenClosed(c, 1); }
      MovesFalls(c, AcceptHello(c), ProtServerListenProposal);
    } else {
      var e := SetState(d, ProtClientInit);
      QuietMoves(d, ProtClientInit);
      hide Moves, Broken, SetState, Falls, Send, Dies;
      MovesTwice(c, d, e, HelloOk, ProtClientInit);
      MovedBroken(c, e, ProtClientInit, 1);
      SendFails(e, ANNOUNCE);
      MovedDies(c, e, Fail(Send(e, ANNOUNCE).0), ProtClientInit);
      DiesFalls(c, AcceptHello(c), T.Accepts(c.role));
    }
  }

  lemma BrokenClosed(c: Conn, n: nat)
    requires Broken(c, n)
    ensures c.shutdown ==> !c.open
  {
  }

  lemma PinDies(c: Conn, s: State)
    requires Broken(c, 1) && s != Error
    ensures Dies(c, StartPin(SetState(c, s)))
  {
    hide SetState, Send, Fail;
    QuietMoves(c, s);
    QuietMoves(SetState(c, s), PinCheckInit);
    SendFails(SetState(SetState(c, s), PinCheckInit), PIN_NONE);
  }

  // ---------------------------------------------------------------- one message

  lemma ClientCmiFalls(c: Conn, hub: Hub, m: Message)
    requires Broken(c, 2) && c.state == CmiClientWait && c.role == Client
    ensures Dies(c, OnClientCmi(c, hub, Some(m)))
  {
    hide SetState, ChooseHello, Fail, IsCmi, Moves, Broken, Dies;
    var s := CmiClientEvaluate;
    var d := SetState(c, s);
    StateBroken(c, s);
    if IsCmi(Some(m)) { HelloDies(d, hub); } else { StopsBroken(d); FailDies(d); }
    MovedDies(c, d, OnClientCmi(c, hub, Some(m)), s);
  }

  lemma ServerCmiFalls(c: Conn, hub: Hub, m: Message)
    requires Broken(c, 2) && c.state == CmiServerWait && c.role == Server
    ensures Dies(c, OnServerCmi(c, hub, Some(m)))
  {
    hide SetState, ChooseHello, Fail, IsCmi, Moves, Broken, Dies, Write;
    var s := CmiServerEvaluate;
    var d := SetState(c, s);
    StateBroken(c, s);
    SendFails(d, CmiMessage);
    MovedDies(c, d, Fail(Write(d, CmiMessage).0), s);
  }

  lemma ReadyFalls(c: Conn, hub: Hub, m: Message)
    requires Broken(c, 2) && c.state == HelloReadyListen
    ensures Falls(c, OnReadyListen(c, hub, Some(m)), T.ReadyHears(c.role, m))
  {
    hide SetState, Send, Arm, StopTimer, AcceptHello, AbortHello, Fail, AsHello, Falls, Broken, Dies, Moves, T.Rests, T.Accepts;
    var h := AsHello(Some(m));
    var r := OnReadyListen(c, hub, Some(m));
    StopsBroken(c);
    if h == None || h.value.phase == OtherPhase {
      AbortedDies(c);
      DiesFalls(c, r, T.Aborts());
    } else if h.value.phase == Ready {
      AcceptFalls(c);
    } else if h.value.phase == Aborted {
      QuietMoves(c, HelloRemoteAbortDone);
      MovesFalls(c, r, HelloRemoteAbortDone);
    } else if h.value.prolongation == Some(true) {
      ProlongedDies(c, hub);
      DiesFalls(c, r, T.GoesTo(HelloReadyListen, [READY]));
    } else {
      SelfMoves(c);
      MovesFalls(c, c, HelloReadyListen);
    }
  }

  lemma SelfMoves(c: Conn)
    ensures Moves(c, c, c.state)
  {
  }

  lemma ProlongedDies(c: Conn, hub: Hub)
    requires Broken(c, 2) && c.state == HelloReadyListen
    ensures var d := Send(if hub.waitAllowed then Arm(c, WaitForReady, HELLO_INIT) else c, READY);
            !d.1 && Dies(c, Fail(d.0))
  {
    var a := if hub.waitAllowed then Arm(c, WaitForReady, HELLO_INIT) else c;
    assert Moves(c, a, HelloReadyListen);
    SendFails(a, READY);
    hide Send, Fail;
  }

  lemma PendingFalls(c: Conn, m: Message)
    requires Broken(c, 2) && c.state == HelloPendingListen
    ensures Falls(c, OnPendingListen(c, Some(m)), T.PendingHears(m))
  {
    hide SetState, AbortHello, AsHello, WaitingDuration, T.Rests, OnPeerPending, Arm, StopTimer, Falls, Broken, Dies, Moves;
    var h := AsHello(Some(m));
    var r := OnPendingListen(c, Some(m));
    StopsBroken(c);
    if h == None || h.value.phase == OtherPhase || (h.value.phase == Ready && h.value.waiting == None) {
      AbortedDies(c);
      DiesFalls(c, r, T.Aborts());
    } else if h.value.phase == Ready {
      LongReadyFalls(c, WaitingDuration(h.value.waiting.value));
    } else if h.value.phase == Aborted {
      QuietMoves(c, HelloRemoteAbortDone);
      MovesFalls(c, r, HelloRemoteAbortDone);
    } else {
      PeerFalls(c, h.value, m);
    }
  }

  lemma LongReadyFalls(c: Conn, d: int)
    requires Broken(c, 2) && c.state == HelloPendingListen
    ensures Falls(c, Arm(StopTimer(c), SendProlongationRequest, d - PROLONG_THRESHOLD), T.GoesTo(HelloPendingListen, []))
    ensures Falls(c, AbortHello(StopTimer(c)), T.Aborts())
  {
    StopsBroken(c);
    AbortedDies(StopTimer(c));
    hide AbortHello;
  }

  lemma PeerFalls(c: Conn, hello: HelloBody, m: Message)
    requires Broken(c, 2) && c.state == HelloPendingListen && AsHello(Some(m)) == Some(hello) && hello.phase == Pending
    ensures Falls(c, OnPeerPending(c, hello), T.PendingHears(m))
  {
    hide Send, AbortHello, Fail, AsHello, WaitingDuration, T.Rests, Broken, Dies;
    if hello.waiting.Some? && hello.prolongation == None {
      AnnouncedDies(c, WaitingDuration(hello.waiting.value));
    } else {
      StopsBroken(c);
      SendFails(c, PENDING);
      AbortedDies(c);
    }
  }

  lemma AnnouncedDies(c: Conn, d: int)
    requires Broken(c, 2) && c.state == HelloPendingListen
    ensures Dies(c, AbortHello(StopTimer(c).(lastWaiting := d))) && (c.shutdown ==> !c.open)
  {
    AbortedDies(StopTimer(c).(lastWaiting := d));
    hide AbortHello;
  }

  lemma ProposalFalls(c: Conn, m: Message)
    requires Broken(c, 2) && c.state == ProtServerListenProposal
    ensures Dies(c, OnProposal(c, Some(m)))
  {
    hide SetState, Send, AbortProtocol, Fail, AsHandshake, Broken, Dies, StopTimer, Moves;
    var d := StopTimer(c);
    StopsBroken(c);
    AbortProtocolDies(c, UnexpectedMessage);
    SendFails(d, SELECT);
    MovedDies(c, d, Fail(Send(d, SELECT).0), c.state);
  }

  lemma ConfirmFalls(c: Conn, m: Message)
    requires Broken(c, 2) && c.state == ProtServerListenConfirm
    ensures Dies(c, OnConfirm(c, Some(m)))
  {
    hide SetState, AbortProtocol, AsHandshake, StartPin, Broken, Dies, StopTimer, Moves;
    var d := StopTimer(c);
    StopsBroken(c);
    AbortProtocolDies(c, UnexpectedMessage);
    AbortProtocolDies(c, SelectionMismatch);
    PinDies(d, ProtServerOk);
    MovedDies(c, d, StartPin(SetState(d, ProtServerOk)), c.state);
  }

  lemma ChoiceFalls(c: Conn, m: Message)
    requires Broken(c, 2) && c.state == ProtClientListenChoice
    ensures Dies(c, OnChoice(StopTimer(c), Some(m)))
  {
    hide SetState, Send, AbortProtocol, Fail, AsHandshake, StartPin, Broken, Dies, StopTimer, Moves;
    var d := StopTimer(c);
    StopsBroken(c);
    AbortProtocolDies(d, UnexpectedMessage);
    AbortProtocolDies(d, SelectionMismatch);
    SendFails(d, SELECT);
    MovedDies(c, d, OnChoice(d, Some(m)), c.state);
  }

  lemma PinFalls(c: Conn, m: Message)
    requires Broken(c, 2) && c.state == PinCheckListen
    ensures Dies(c, OnPin(c, Some(m)))
  {
    hide SetState, Send, Fail, AsPin, Broken, Dies, Moves;
    var d := SetState(c, PinCheckOk);
    StateBroken(c, PinCheckOk);
    SendFails(d, AccessRequestMessage);
    FailDies(c);
    MovedDies(c, d, Fail(Send(d, AccessRequestMessage).0), PinCheckOk);
  }

  lemma AccessFalls(c: Conn, m: Message)
    requires Broken(c, 2) && c.state == AccessMethodsRequest
    ensures Falls(c, OnAccess(c, Some(m)), T.AccessHears(c, m))
  {
    hide Finish, Fail, Send, AsAccess, Broken, Dies, Falls, Moves, StopTimer;
    var a := AsAccess(Some(m));
    StopsBroken(c);
    if a == Request {
      SendFails(c, AccessMethodsMessage(Some(c.localId)));
      DiesFalls(c, OnAccess(c, Some(m)), T.AccessHears(c, m));
    } else if a.Methods? && a.id.Some? {
      FinishFalls(c, a.id.value);
      FailDies(c);
      DiesFalls(c, Fail(c), T.EndsWith([]));
    } else {
      FailDies(c);
      DiesFalls(c, Fail(c), T.EndsWith([]));
    }
  }

  lemma FinishFalls(c: Conn, id: string)
    requires c.shutdown ==> !c.open
    ensures Falls(c, Finish(c.(remoteId := id)), T.GoesTo(Complete, []))
  {
  }

  lemma HelloFalls(c: Conn, hub: Hub, m: Message)
    requires Broken(c, 2) && T.Settled(c)
    ensures c.state == CmiClientWait ==> Falls(c, OnWaiting(c, hub, Some(m)), T.Hears(c, hub, m))
    ensures c.state == CmiServerWait ==> Falls(c, OnWaiting(c, hub, Some(m)), T.Hears(c, hub, m))
    ensures c.state == HelloReadyListen ==> Falls(c, OnWaiting(c, hub, Some(m)), T.Hears(c, hub, m))
    ensures c.state == HelloPendingListen ==> Falls(c, OnWaiting(c, hub, Some(m)), T.Hears(c, hub, m))
  {
    hide Broken, Dies, Falls, OnClientCmi, OnServerCmi, OnReadyListen, OnPendingListen, IsCmi, T.ReadyHears, T.PendingHears, T.Rests;
    if c.state == CmiClientWait {
      ClientCmiFalls(c, hub, m);
      DiesFalls(c, OnClientCmi(c, hub, Some(m)), T.Hears(c, hub, m));
    }
    if c.state == CmiServerWait {
      ServerCmiFalls(c, hub, m);
      DiesFalls(c, OnServerCmi(c, hub, Some(m)), T.Hears(c, hub, m));
    }
    if c.state == HelloReadyListen { ReadyFalls(c, hub, m); }
    if c.state == HelloPendingListen { PendingFalls(c, m); }
  }

  lemma ProtocolFalls(c: Conn, hub: Hub, m: Message)
    requires Broken(c, 2) && T.Settled(c)
    ensures c.state == ProtServerListenProposal ==> Falls(c, OnWaiting(c, hub, Some(m)), T.Hears(c, hub, m))
    ensures c.state == ProtServerListenConfirm ==> Falls(c, OnWaiting(c, hub, Some(m)), T.Hears(c, hub, m))
    ensures c.state == ProtClientListenChoice ==> Falls(c, OnWaiting(c, hub, Some(m)), T.Hears(c, hub, m))
    ensures c.state == PinCheckListen ==> Falls(c, OnWaiting(c, hub, Some(m)), T.Hears(c, hub, m))
    ensures c.state == AccessMethodsRequest ==> Falls(c, OnWaiting(c, hub, Some(m)), T.Hears(c, hub, m))
  {
    hide Broken, Dies, Falls, OnProposal, OnConfirm, OnChoice, OnPin, OnAccess, T.AccessHears, AsPin, T.Rests;
    if c.state == ProtServerListenProposal {
      ProposalFalls(c, m);
      DiesFalls(c, OnProposal(c, Some(m)), T.ProposalHears(m));
    }
    if c.state == ProtServerListenConfirm {
      ConfirmFalls(c, m);
      DiesFalls(c, OnConfirm(c, Some(m)), T.ConfirmHears(m));
    }
    if c.state == ProtClientListenChoice {
      ChoiceFalls(c, m);
      DiesFalls(c, OnChoice(StopTimer(c), Some(m)), T.ChoiceHears(m));
    }
    if c.state == PinCheckListen {
      PinFalls(c, m);
      DiesFalls(c, OnPin(c, Some(m)), T.Hears(c, hub, m));
    }
    if c.state == AccessMethodsRequest { AccessFalls(c, m); }
  }

  lemma OthersIgnore(c: Conn, hub: Hub, m: Message)
    requires Broken(c, 2) && T.Settled(c) && !Waiting(c.state)
    ensures OnWaiting(c, hub, Some(m)) == c && T.Hears(c, hub, m) == T.GoesTo(c.state, [])
  {
  }

  lemma WaitingFalls(c: Conn, hub: Hub, m: Message)
    requires Broken(c, 2) && T.Settled(c) && c.state != Error
    ensures Falls(c, OnWaiting(c, hub, Some(m)), T.Hears(c, hub, m))
  {
    if Waiting(c.state) {
      hide OnWaiting, T.Hears, Broken, Falls, T.Settled;
      HelloFalls(c, hub, m);
      ProtocolFalls(c, hub, m);
    } else {
      OthersIgnore(c, hub, m);
    }
  }

  // ---------------------------------------------------------------- the other events

  lemma ProtocolTimeout(c: Conn, hub: Hub)
    requires Broken(c, 2)
    requires c.state == ProtServerListenProposal || c.state == ProtServerListenConfirm || c.state == ProtClientListenChoice
    ensures Falls(c, OnTimeout(c, hub), T.TimesOut(c, hub))
  {
    hide AbortProtocol, Broken, Dies, StopTimer, Moves;
    var d := StopTimer(c);
    StopsBroken(c);
    AbortProtocolDies(d, Timedout);
    MovedDies(c, d, AbortProtocol(d, Timedout), c.state);
  }

  lemma PlainTimeout(c: Conn, hub: Hub)
    requires Broken(c, 2)
    requires c.state == CmiClientWait || c.state == CmiServerWait || c.state == PinCheckListen || c.state == AccessMethodsRequest
    ensures Falls(c, OnTimeout(c, hub), T.TimesOut(c, hub))
  {
    hide Fail, Broken, Dies, StopTimer, Moves;
    var d := StopTimer(c);
    StopsBroken(c);
    FailDies(d) by { StopsBroken(d); }
    MovedDies(c, d, Fail(d), c.state);
  }

  lemma HelloTimeout(c: Conn, hub: Hub)
    requires Broken(c, 2) && (c.state == HelloReadyListen || c.state == HelloPendingListen)
    ensures Falls(c, OnTimeout(c, hub), T.TimesOut(c, hub))
  {
    hide Fail, AbortHello, Send, Broken, Dies, StopTimer, Moves;
    var d := StopTimer(c);
    StopsBroken(c);
    AbortedDies(d);
    SendFails(d, PROLONG);
    MovedDies(c, d, AbortHello(d), c.state);
    MovedDies(c, d, Fail(Send(d, PROLONG).0), c.state);
    assert d.timer.kind == c.timer.kind by { StopKeepsKind(c); }
  }

  lemma StopKeepsKind(c: Conn)
    ensures StopTimer(c).timer.kind == c.timer.kind
  {
  }

  lemma OthersTimeout(c: Conn, hub: Hub)
    requires Broken(c, 2) && T.Settled(c) && !Waiting(c.state)
    ensures Falls(c, OnTimeout(c, hub), T.TimesOut(c, hub)) || c.state == Error
  {
  }

  lemma TimeoutFalls(c: Conn, hub: Hub)
    requires Broken(c, 2) && T.Settled(c) && c.state != Error
    ensures Falls(c, OnTimeout(c, hub), T.TimesOut(c, hub))
  {
    hide OnTimeout, T.TimesOut, Falls, Broken, T.Settled;
    if c.state == ProtServerListenProposal || c.state == ProtServerListenConfirm || c.state == ProtClientListenChoice {
      ProtocolTimeout(c, hub);
    } else if c.state == HelloReadyListen || c.state == HelloPendingListen {
      HelloTimeout(c, hub);
    } else if Waiting(c.state) {
      PlainTimeout(c, hub);
    } else {
      OthersTimeout(c, hub);
    }
  }

  lemma ApproveDies(c: Conn, hub: Hub)
    requires Broken(c, 2) && c.state == HelloPendingListen
    ensures Dies(c, OnApprove(c, hub))
  {
    QuietMoves(c, HelloReadyInit);
    var a := Enter(c, HelloReadyInit);
    assert Broken(a, 2);
    hide Broken, Dies, Moves, Enter, StopTimer, SendReady, AbortHello, AcceptHello;
    StopsBroken(a);
    var b := StopTimer(a);
    ReadyDies(b);
    var d := SendReady(b);
    MovedDies(a, b, d, HelloReadyInit);
    MovedDies(c, a, d, HelloReadyInit);
    DeadDies(c, d);
  }

  lemma DeadDies(c: Conn, d: Conn)
    requires Dies(c, d)
    ensures Dies(c, AbortHello(d)) && !d.open
  {
    AbortedDies(d);
    hide AbortHello;
  }

  lemma UserAbortDies(c: Conn)
    requires Broken(c, 2) && (c.state == HelloPendingListen || c.state == HelloReadyListen)
    ensures Dies(c, OnAbort(c))
  {
    QuietMoves(c, HelloAbort);
    var a := Enter(c, HelloAbort);
    assert Broken(a, 2);
    hide Broken, Dies, Moves, Enter, StopTimer, SendAborted;
    StopsBroken(a);
    var b := StopTimer(a);
    AbortedDies(b);
    MovedDies(a, b, SendAborted(b), HelloAbort);
    MovedDies(c, a, SendAborted(b), HelloAbort);
  }

  /** Events that close the connection and leave the state as it is. */
  predicate Closes(e: Event) {
    e.kind.Close? || (e.kind.Receive? && e.kind.m.CloseMessage?)
  }

  /** Where an event lands that cannot send anything. */
  predicate Lands(c: Conn, d: Conn, o: T.Outcome, closes: bool) {
    && d.sent == c.sent && (d.shutdown ==> !d.open) && (d.shutdown && !c.shutdown ==> !d.timer.running)
    && d.state == (if o.said == [] || closes then o.state else Error)
    && d.open == (c.open && o.open && o.said == []) && (!c.open && o.said != [] ==> d.shutdown)
  }

  lemma FallsLands(c: Conn, d: Conn, o: T.Outcome)
    requires Falls(c, d, o) && (o.open <==> o.state != Error)
    ensures Lands(c, d, o, false)
  {
  }

  lemma DiesLands(c: Conn, d: Conn, o: T.Outcome)
    requires Dies(c, d) && o.said != []
    ensures Lands(c, d, o, false)
  {
  }

  lemma NothingLands(c: Conn)
    requires Broken(c, 2)
    ensures Lands(c, c, T.GoesTo(c.state, []), false)
  {
  }

  lemma HearsOpen(c: Conn, hub: Hub, m: Message)
    requires T.Settled(c) && c.state != Error
    ensures var o := T.Hears(c, hub, m); o.open <==> o.state != Error
  {
    hide AsHello, AsHandshake, AsPin, AsAccess, IsCmi, WaitingDuration, T.Rests;
  }

  lemma TimesOutOpen(c: Conn, hub: Hub)
    requires c.state != Error
    ensures var o := T.TimesOut(c, hub); o.open <==> o.state != Error
  {
  }

  lemma RunLands(c: Conn)
    requires Broken(c, 2) && c.state == CmiInitStart
    ensures Lands(c, OnRun(c), if c.role == Client then T.GoesTo(CmiClientWait, [CmiMessage]) else T.GoesTo(CmiServerWait, []), false)
  {
    StateBroken(c, CmiClientSend);
    StateBroken(c, CmiServerWait);
    var d := SetState(c, CmiClientSend);
    SendFails(d, CmiMessage);
    MovedDies(c, d, Fail(Write(d, CmiMessage).0), CmiClientSend);
    hide SetState, Write, Fail;
  }

  lemma CloseMessageLands(c: Conn, hub: Hub, p: ClosePhase)
    requires Broken(c, 2) && c.state != CmiInitStart
    ensures Lands(c, OnMessage(c, hub, CloseMessage(p)), T.Table(c, Event(Receive(CloseMessage(p)), hub, [])), true)
  {
    SendFails(c, CloseMessage(Confirm));
    hide Send, OnWaiting;
  }

  lemma ErrorLands(c: Conn)
    requires Broken(c, 2) && T.Settled(c)
    ensures Lands(c, OnConnectionError(c), T.Outcome(T.Breaks(c.state), false, []), false)
  {
    assert c.state != HelloAbort;
    hide SetState, Resting;
    T.StateOnly(c.(open := false), HelloRejected);
    T.StateOnly(c.(open := false), Error);
  }

  lemma CloseLands(c: Conn, safe: bool)
    requires Broken(c, 2)
    ensures Lands(c, OnClose(c, safe), T.Table(c, Event(Close(safe), Hub(true, true, true), [])), true)
  {
  }

  lemma MessageLands(c: Conn, hub: Hub, m: Message)
    requires Broken(c, 2) && T.Settled(c) && c.state != Error && c.state != CmiInitStart
    ensures Lands(c, OnMessage(c, hub, m), T.Table(c, Event(Receive(m), hub, [])), m.CloseMessage?)
  {
    hide Broken, Falls, Lands, T.Settled, OnWaiting, T.Hears, Send;
    if m.CloseMessage? {
      CloseMessageLands(c, hub, m.closePhase);
    } else {
      WaitingFalls(c, hub, m);
      HearsOpen(c, hub, m);
      FallsLands(c, OnWaiting(c, hub, Some(m)), T.Hears(c, hub, m));
    }
  }

  lemma ApproveLands(c: Conn, hub: Hub)
    requires Broken(c, 2) && c.state != CmiInitStart
    ensures Lands(c, OnApprove(c, hub), T.Table(c, Event(Approve, hub, [])), false)
  {
    hide Broken, Dies, Lands, SendReady, AcceptHello, AbortHello, StopTimer, Enter;
    if c.state == HelloPendingListen {
      ApproveDies(c, hub);
      DiesLands(c, OnApprove(c, hub), T.Table(c, Event(Approve, hub, [])));
    } else {
      NothingLands(c);
    }
  }

  lemma UserAbortLands(c: Conn)
    requires Broken(c, 2) && c.state != CmiInitStart
    ensures Lands(c, OnAbort(c), T.Table(c, Event(AbortByUser, Hub(true, true, true), [])), false)
  {
    hide Broken, Dies, Lands, SendAborted, StopTimer, Enter;
    if c.state == HelloPendingListen || c.state == HelloReadyListen {
      UserAbortDies(c);
      DiesLands(c, OnAbort(c), T.Aborts());
    } else {
      NothingLands(c);
    }
  }

  /**
   On a connection that is closed, or refuses every write, nothing is sent, and an event that has something
   to send ends the handshake, unless it only closes the connection; any other goes where the table says.
   Trying to send on a closed connection shuts it down.
   */
  lemma BrokenExact(c: Conn, e: Event)
    requires T.Settled(c) && c.state != Error && Enabled(c, e)
    requires c.open ==> |e.net| >= 2 && !e.net[0] && !e.net[1]
    ensures var d := Step(c, e);
            var o := T.Table(c, e);
            && d.sent == c.sent && (d.shutdown ==> !d.open) && (d.shutdown && !c.shutdown ==> !d.timer.running)
            && d.state == (if o.said == [] || Closes(e) then o.state else Error)
            && d.open == (c.open && o.open && o.said == []) && (!c.open && o.said != [] ==> d.shutdown)
  {
    var b := c.(net := e.net);
    assert Broken(b, 2) && T.Settled(b) && T.Table(b, e) == T.Table(c, e);
    hide Broken, Lands, T.Settled, T.Table, Step;
    StepLands(c, b, e);
    LandedOn(b, Step(c, e), T.Table(c, e), Closes(e));
  }

  lemma StepLands(c: Conn, b: Conn, e: Event)
    requires b == c.(net := e.net) && Broken(b, 2) && T.Settled(b) && c.state != Error && Enabled(c, e)
    ensures Lands(b, Step(c, e), T.Table(b, e), Closes(e))
  {
    hide Broken, Dies, Falls, Lands, T.Settled, OnRun, OnMessage, OnWaiting, OnTimeout, OnApprove, OnAbort, OnConnectionError,
         OnClose, T.Hears, T.TimesOut, Send;
    match e.kind
    case Run => RunLands(b);
    case Receive(m) => MessageLands(b, e.hub, m);
    case SpineData => NothingLands(b);
    case Timeout =>
      TimeoutFalls(b, e.hub);
      TimesOutOpen(b, e.hub);
      FallsLands(b, OnTimeout(b, e.hub), T.TimesOut(b, e.hub));
    case Approve => ApproveLands(b, e.hub);
    case AbortByUser => UserAbortLands(b);
    case ConnectionError => ErrorLands(b);
    case Close(safe) => CloseLands(b, safe);
  }

  lemma LandedOn(c: Conn, d: Conn, o: T.Outcome, closes: bool)
    requires Lands(c, d, o, closes)
    ensures d.sent == c.sent && (d.shutdown ==> !d.open) && (d.shutdown && !c.shutdown ==> !d.timer.running)
    ensures d.state == (if o.said == [] || closes then o.state else Error) && d.open == (c.open && o.open && o.said == [])
    ensures !c.open && o.said != [] ==> d.shutdown
  {
  }

  // ---------------------------------------------------------------- the user gives up

  /** The states in which a user can still abort. */
  predicate Abortable(s: State) {
    s == HelloPendingListen || s == HelloReadyListen
  }

  /**
   An abort by the user while the hello is open is announced, or ends the handshake if it cannot be written;
   either way the timer is stopped. In every other state it does nothing.
   */
  lemma AbortExact(c: Conn, e: Event)
    requires T.Settled(c) && e.kind.AbortByUser?
    ensures var d := Step(c, e);
            if !Abortable(c.state) then d == c.(net := e.net)
            else if c.open && (e.net == [] || e.net[0]) then
              && d.state == HelloAbortDone && d.sent == c.sent + [ABORTED] && d.open && !d.timer.running
              && d.path == c.path + [HelloAbort, HelloAbortDone]
            else d.state == Error && d.sent == c.sent && !d.open && !d.timer.running && d.path == c.path + [HelloAbort, Error]
  {
    if Abortable(c.state) {
      var a := StopTimer(Enter(c.(net := e.net), HelloAbort));
      assert a.path == c.path + [HelloAbort] && a.sent == c.sent && a.open == c.open && !a.timer.running && a.net == e.net;
      assert Step(c, e) == SendAborted(a);
      hide OnAbort, StopTimer, Enter;
      SentAborted(a);
    }
  }

  lemma SentAborted(c: Conn)
    requires !c.timer.running && (c.shutdown ==> !c.open) && c.state == HelloAbort
    ensures var d := SendAborted(c);
            && !d.timer.running
            && if c.open && (c.net == [] || c.net[0])
               then d.state == HelloAbortDone && d.sent == c.sent + [ABORTED] && d.open && d.path == c.path + [HelloAbortDone]
               else d.state == Error && d.sent == c.sent && !d.open && d.path == c.path + [Error]
  {
  }

  lemma {:induction false} PathKept(c: Conn, es: seq<Event>)
    requires Sound(c) && SteadyRun(c, es)
    ensures c.path <= RunAll(c, es).path
    decreases |es|
  {
    if es != [] {
      var d := Step(c, es[0]);
      StepKeeps(c, es[0]);
      assert c.path <= d.path;
      hide Step, Sound, Kept, Enabled, Glitch;
      PathKept(d, es[1..]);
    }
  }

  lemma DeadBeyond(role: Role, p: seq<State>, q: seq<State>)
    requires Walk(role, p) && q <= p && |q| < |p| && Dead(p[|q|]) && NoAcceptance(q)
    ensures Dead(p[|p| - 1]) && HelloOk !in p && forall k | |q| <= k < |p| :: p[k] != Complete
  {
    hide Walk;
    forall k | |q| <= k < |p| ensures Dead(p[k]) { DeadStaysDead(role, p, |q|, k); }
    forall k | 0 <= k < |q| ensures p[k] != HelloOk { assert p[k] == q[k]; }
  }

  lemma SoundPath(c: Conn)
    requires Sound(c)
    ensures |c.path| > 0 && Walk(c.role, c.path) && c.path[|c.path| - 1] == c.state
  {
  }

  /** After an abort by the user no peer is ever accepted on this connection, whatever happens next. */
  lemma AbortedForGood(c: Conn, es: seq<Event>, e: Event, fs: seq<Event>)
    requires Initial(c) && SteadyRun(c, es) && Abortable(RunAll(c, es).state)
    requires e.kind.AbortByUser? && SteadyRun(Step(RunAll(c, es), e), fs)
    ensures var r := RunAll(Step(RunAll(c, es), e), fs);
            && Dead(r.state) && HelloOk !in r.path
            && forall k | |RunAll(c, es).path| <= k < |r.path| :: r.path[k] != Complete
  {
    RunWalks(c, es);
    hide *;
    AbortedStays(RunAll(c, es), e, fs);
  }

  lemma AbortedStays(b: Conn, e: Event, fs: seq<Event>)
    requires Sound(b) && Abortable(b.state) && e.kind.AbortByUser? && SteadyRun(Step(b, e), fs)
    ensures var r := RunAll(Step(b, e), fs);
            Dead(r.state) && HelloOk !in r.path && forall k | |b.path| <= k < |r.path| :: r.path[k] != Complete
  {
    hide *;
    var d := Step(b, e);
    AbortEnabled(b, e);
    var r := RunAll(d, fs);
    StepKeeps(b, e);
    AbortPath(b, e);
    RunWalks(d, fs);
    PathKept(d, fs);
    SoundPath(r);
    SoundUnaccepted(b);
    AbortStays(b.path, d.path, r.path);
    DeadBeyond(r.role, r.path, b.path);
  }

  lemma AbortEnabled(b: Conn, e: Event)
    requires Abortable(b.state) && e.kind.AbortByUser?
    ensures Enabled(b, e) && !Glitch(b, e)
  {
  }

  lemma AbortStays(p: seq<State>, q: seq<State>, r: seq<State>)
    requires p <= q <= r && |q| > |p| && q[|p|] == HelloAbort
    ensures p <= r && |p| < |r| && Dead(r[|p|])
  {
  }

  lemma SoundUnaccepted(b: Conn)
    requires Sound(b) && Abortable(b.state)
    ensures NoAcceptance(b.path)
  {
    HelloNotYet(b, b);
    hide Kept;
  }

  lemma AbortPath(b: Conn, e: Event)
    requires Abortable(b.state) && e.kind.AbortByUser?
    ensures |Step(b, e).path| > |b.path| && Step(b, e).path[|b.path|] == HelloAbort && b.path <= Step(b, e).path
  {
    var a := Enter(b.(net := e.net), HelloAbort);
    assert a.path == b.path + [HelloAbort];
    hide SendAborted;
    AbortedPath(StopTimer(a));
  }

  lemma AbortedPath(c: Conn)
    ensures c.path <= SendAborted(c).path
  {
    var d := Send(StopTimer(c), ABORTED).0;
    assert d.path == c.path;
    hide SetState, Send;
    SetStateGrows(d, HelloAbortDone);
    SetStateGrows(StopTimer(d), Error);
  }

  // ---------------------------------------------------------------- a refused "ready"

  /**
   A "ready" that is refused although the connection is open is followed by an abort; a refused "pending" ends
   the handshake.
   */
  lemma RefusedHello(c: Conn, e: Event)
    requires T.Settled(c) && c.open && e.kind.Receive? && !e.kind.m.CloseMessage? && IsCmi(Some(e.kind.m))
    ensures c.state == CmiClientWait && e.net == [false] ==>
              Step(c, e).state == HelloAbortDone && Step(c, e).sent == c.sent + [ABORTED] && Step(c, e).open
    ensures c.state == CmiServerWait && e.net == [true, false] && (e.hub.paired || e.hub.autoAccept) ==>
              Step(c, e).state == HelloAbortDone && Step(c, e).sent == c.sent + [CmiMessage, ABORTED] && Step(c, e).open
    ensures c.state == CmiServerWait && e.net == [true, false] && !(e.hub.paired || e.hub.autoAccept) ==>
              Step(c, e).state == Error && Step(c, e).sent == c.sent + [CmiMessage] && !Step(c, e).open
  {
    var b := c.(net := e.net);
    hide OnClientCmi, OnServerCmi, IsCmi;
    if c.state == CmiClientWait && e.net == [false] { ClientRefused(b, e.hub, e.kind.m); }
    if c.state == CmiServerWait && e.net == [true, false] { ServerRefused(b, e.hub, e.kind.m); }
  }

  lemma ReadyRefused(c: Conn)
    requires c.open && !c.shutdown && c.net == [false]
    ensures var d := SendReady(c); d.state == HelloAbortDone && d.sent == c.sent + [ABORTED] && d.open
  {
  }

  lemma PendingRefused(c: Conn, hub: Hub)
    requires c.open && !c.shutdown && c.net == [false]
    ensures var d := SendPending(c, hub); d.state == Error && d.sent == c.sent && !d.open
  {
  }

  lemma ChoiceRefused(c: Conn, hub: Hub)
    requires c.open && !c.shutdown && c.net == [false]
    ensures var d := ChooseHello(SetState(c, Hello), hub);
            if hub.paired || hub.autoAccept || c.role == Client
            then d.state == HelloAbortDone && d.sent == c.sent + [ABORTED] && d.open
            else d.state == Error && d.sent == c.sent && !d.open
  {
    QuietMoves(c, Hello);
    var b := SetState(c, Hello);
    QuietMoves(b, HelloReadyInit);
    QuietMoves(b, HelloPendingInit);
    hide SetState, SendReady, SendPending;
    if hub.paired || hub.autoAccept || c.role == Client {
      ReadyRefused(SetState(b, HelloReadyInit));
    } else {
      PendingRefused(SetState(b, HelloPendingInit), hub);
    }
  }

  lemma ClientRefused(c: Conn, hub: Hub, m: Message)
    requires c.open && !c.shutdown && c.role == Client && IsCmi(Some(m)) && c.net == [false]
    ensures var d := OnClientCmi(c, hub, Some(m)); d.state == HelloAbortDone && d.sent == c.sent + [ABORTED] && d.open
  {
    QuietMoves(c, CmiClientEvaluate);
    hide SetState, ChooseHello;
    ChoiceRefused(SetState(c, CmiClientEvaluate), hub);
  }

  lemma ServerRefused(c: Conn, hub: Hub, m: Message)
    requires c.open && !c.shutdown && c.role == Server && IsCmi(Some(m)) && c.net == [true, false]
    ensures var d := OnServerCmi(c, hub, Some(m));
            if hub.paired || hub.autoAccept then d.state == HelloAbortDone && d.sent == c.sent + [CmiMessage, ABORTED] && d.open
            else d.state == Error && d.sent == c.sent + [CmiMessage] && !d.open
  {
    QuietMoves(c, CmiServerEvaluate);
    var d := SetState(c, CmiServerEvaluate);
    hide SetState, ChooseHello;
    var e := Write(d, CmiMessage).0;
    assert Write(d, CmiMessage).1 && e.open && !e.shutdown && e.sent == c.sent + [CmiMessage];
    assert e.net == [false];
    ChoiceRefused(e, hub);
  }
}
