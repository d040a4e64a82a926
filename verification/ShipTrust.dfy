/**
 What lets a server accept a peer: only a connection that was trusted from the start, or an approval
 that found the connection alive, the peer paired and waiting still allowed.
 */
module ShipTrust {
  import opened Basics
  import opened ShipModel
  import opened ShipEndpoint
  import opened ShipOrder

  predicate Early(s: State) {
    || s == CmiInitStart || s == CmiServerWait || s == HelloPendingListen
    || s == HelloAbortDone || s == HelloRemoteAbortDone || s == HelloRejected || s == Error
  }

  predicate Guarded(c: Conn) {
    c.role == Server && Unaccepted(c) && Early(c.state)
  }

  /** The two events that admit a peer. */
  predicate Admits(c: Conn, e: Event) {
    || (c.state == CmiServerWait && e.kind.Receive? && (e.hub.paired || e.hub.autoAccept))
    || (c.state == HelloPendingListen && e.kind.Approve? && c.open && e.hub.paired && e.hub.waitAllowed)
  }

  lemma SendPendingUnaccepted(c: Conn, hub: Hub)
    requires Unaccepted(c)
    ensures Unaccepted(SendPending(c, hub))
  {
    hide Unaccepted, SetState, Send, AbortHello, Fail;
    SendUnaccepted(c, PENDING);
    var d := Send(c, PENDING).0;
    FailUnaccepted(d);
    SetStateUnaccepted(d, HelloPendingListen);
    AbortUnaccepted(SetState(d, HelloPendingListen));
  }

  lemma ServerCmiUnaccepted(c: Conn, hub: Hub, m: Option<Message>)
    requires c.role == Server && Unaccepted(c) && !hub.paired && !hub.autoAccept
    ensures Guarded(OnServerCmi(c, hub, m))
  {
    hide SetState, Write, Send, Fail, SendPending, SendReady;
    SetStateUnaccepted(c, CmiServerEvaluate);
    var d := SetState(c, CmiServerEvaluate);
    SendUnaccepted(d, CmiMessage);
    FailUnaccepted(RejectCmi(d));
    var e := Write(d, CmiMessage).0;
    FailUnaccepted(e);
    SetStateUnaccepted(e, Hello);
    var f := SetState(e, Hello);
    SetStateUnaccepted(f, HelloPendingInit);
    SendPendingUnaccepted(SetState(f, HelloPendingInit), hub);
  }

  lemma PeerPendingUnaccepted(c: Conn, hello: HelloBody)
    requires Guarded(c) && c.state == HelloPendingListen
    ensures Guarded(OnPeerPending(c, hello))
  {
    hide NoAcceptance, SetState, Send, Fail, AbortHello, WaitingDuration;
    AbortUnaccepted(c);
    SendUnaccepted(c, PENDING);
    FailUnaccepted(Send(c, PENDING).0);
    if hello.waiting.Some? {
      AbortUnaccepted(StopTimer(c).(lastWaiting := WaitingDuration(hello.waiting.value)));
    }
  }

  lemma PendingUnaccepted(c: Conn, m: Option<Message>)
    requires Guarded(c) && c.state == HelloPendingListen
    ensures Guarded(OnPendingListen(c, m))
  {
    hide NoAcceptance, SetState, AbortHello, AsHello, WaitingDuration, OnPeerPending;
    AbortUnaccepted(c);
    AbortUnaccepted(StopTimer(c));
    SetStateUnaccepted(c, HelloRemoteAbortDone);
    if AsHello(m).Some? { PeerPendingUnaccepted(c, AsHello(m).value); }
  }

  lemma MessageUnaccepted(c: Conn, hub: Hub, m: Message)
    requires Guarded(c) && (c.state == CmiServerWait ==> !hub.paired && !hub.autoAccept)
    ensures Guarded(OnMessage(c, hub, m))
  {
    hide NoAcceptance, Send, OnClientCmi, OnServerCmi, OnReadyListen, OnPendingListen, OnProposal, OnConfirm,
         OnChoice, OnPin, OnAccess;
    SendUnaccepted(c, CloseMessage(Confirm));
    if c.state == HelloPendingListen { PendingUnaccepted(c, Some(m)); }
    if c.state == CmiServerWait { ServerCmiUnaccepted(c, hub, Some(m)); }
  }

  lemma TimeoutUnaccepted(c0: Conn, hub: Hub)
    requires Guarded(c0)
    ensures Guarded(OnTimeout(c0, hub))
  {
    hide NoAcceptance, Send, Fail, AbortHello, AbortProtocol;
    var c := StopTimer(c0);
    FailUnaccepted(c);
    AbortUnaccepted(c);
    SendUnaccepted(c, PROLONG);
    FailUnaccepted(Send(c, PROLONG).0);
  }

  lemma ApproveUnaccepted(c: Conn, hub: Hub)
    requires Guarded(c)
    requires !(c.state == HelloPendingListen && c.open && hub.paired && hub.waitAllowed)
    ensures Guarded(OnApprove(c, hub))
  {
    if c.state == HelloPendingListen {
      SetStateUnaccepted(c, HelloReadyInit);
      var b := StopTimer(Enter(c, HelloReadyInit));
      assert Unaccepted(b) && b.open == c.open;
      hide Enter, StopTimer, SendReady, AbortHello, AcceptHello;
      SendReadyUnaccepted(b);
      if SendReady(b).open { ReadyNeedsOpen(b); }
      AbortUnaccepted(SendReady(b));
    }
  }

  lemma RunUnaccepted(c: Conn)
    requires Guarded(c)
    ensures Guarded(OnRun(c))
  {
  }

  lemma AbortByUserUnaccepted(c: Conn)
    requires Guarded(c)
    ensures Guarded(OnAbort(c))
  {
    hide NoAcceptance, SendAborted;
    SetStateUnaccepted(c, HelloAbort);
    AbortUnaccepted(StopTimer(Enter(c, HelloAbort)));
  }

  lemma ConnectionErrorUnaccepted(c: Conn)
    requires Guarded(c)
    ensures Guarded(OnConnectionError(c))
  {
    hide NoAcceptance, SetState;
    SetStateUnaccepted(c.(open := false), Error);
  }

  lemma CloseUnaccepted(c: Conn, safe: bool)
    requires Guarded(c)
    ensures Guarded(OnClose(c, safe))
  {
  }

  lemma StepUnaccepted(c: Conn, e: Event)
    requires Guarded(c) && Enabled(c, e) && !Admits(c, e)
    ensures Guarded(Step(c, e))
  {
    var d := c.(net := e.net);
    assert Guarded(d);
    hide Guarded, OnRun, OnMessage, OnTimeout, OnApprove, OnAbort, OnConnectionError, OnClose;
    match e.kind
    case Receive(m) => MessageUnaccepted(d, e.hub, m);
    case SpineData =>
    case Timeout => TimeoutUnaccepted(d, e.hub);
    case Approve => ApproveUnaccepted(d, e.hub);
    case Run => RunUnaccepted(d);
    case AbortByUser => AbortByUserUnaccepted(d);
    case ConnectionError => ConnectionErrorUnaccepted(d);
    case Close(safe) => CloseUnaccepted(d, safe);
  }

  /**
   Over any run of a server, with writes failing as they like: if it ever accepted the peer, some event
   of the run admitted it.
   */
  lemma {:induction false} HelloOkNeedsTrust(c: Conn, es: seq<Event>) returns (k: nat)
    requires Guarded(c) && EnabledRun(c, es)
    requires HelloOk in RunAll(c, es).path
    ensures k < |es| && Admits(RunAll(c, es[..k]), es[k])
    decreases |es|
  {
    hide Enabled, Step, Admits;
    assert es != [];
    assert es[..0] == [];
    if Admits(c, es[0]) {
      k := 0;
    } else {
      StepUnaccepted(c, es[0]);
      var j := HelloOkNeedsTrust(Step(c, es[0]), es[1..]);
      k := j + 1;
      assert es[..k][1..] == es[1..][..j];
    }
  }
}
