/**
 What becomes of the two ends when a server is accepted after it has sent an abort: the one event that breaks
 the order of states cannot make either end complete.
 */
module ShipLapse {
  import opened Basics
  import opened ShipModel
  import opened ShipEndpoint
  import opened ShipOrder

  predicate SentReady(c: Conn) {
    exists m | m in c.sent :: SaysReady(m)
  }

  predicate SentProposal(c: Conn) {
    exists m | m in c.sent :: Proposes(m)
  }

  // ---------------------------------------------------------------- a client is accepted by a "ready"

  /** The states of a client that was not accepted yet. */
  predicate BeforeAcceptance(c: Conn) {
    && c.role == Client && Unaccepted(c)
    && (Dead(c.state) || c.state in {CmiInitStart, CmiClientSend, CmiClientWait, CmiClientEvaluate, Hello, HelloReadyInit, HelloReadyListen})
  }

  lemma ClientBefore(c: Conn)
    requires Sound(c) && c.role == Client && HelloOk !in c.path
    ensures BeforeAcceptance(c)
  {
    if !Dead(c.state) {
      if |c.path| > 7 { LongRoute(c); }
      var waited := AliveOnRoute(Client, c.path, |c.path| - 1);
    }
  }

  lemma LongRoute(c: Conn)
    requires Sound(c) && c.role == Client && |c.path| > 7 && !Dead(c.state)
    ensures HelloOk in c.path
  {
    var waited := AliveOnRoute(Client, c.path, |c.path| - 1);
    assert c.path[7] == Stage(Client, waited, 7);
  }

  lemma ClientCmiUnaccepted(c: Conn, hub: Hub, m: Option<Message>)
    requires c.role == Client && Unaccepted(c)
    ensures Unaccepted(OnClientCmi(c, hub, m))
  {
    hide NoAcceptance, SetState, Write, Fail, SendReady, IsCmi;
    SetStateUnaccepted(c, CmiClientEvaluate);
    var d := SetState(c, CmiClientEvaluate);
    FailUnaccepted(d);
    SetStateUnaccepted(d, Hello);
    var e := SetState(d, Hello);
    SetStateUnaccepted(e, HelloReadyInit);
    SendReadyUnaccepted(SetState(e, HelloReadyInit));
  }

  lemma ReadyListenUnaccepted(c: Conn, hub: Hub, m: Option<Message>)
    requires Unaccepted(c) && (AsHello(m).Some? ==> AsHello(m).value.phase != Ready)
    ensures Unaccepted(OnReadyListen(c, hub, m))
  {
    hide NoAcceptance, SetState, Send, Fail, AbortHello, AsHello, AcceptHello;
    AbortUnaccepted(c);
    SetStateUnaccepted(c, HelloRemoteAbortDone);
    var d := if hub.waitAllowed then Arm(c, WaitForReady, HELLO_INIT) else c;
    SendUnaccepted(d, READY);
    FailUnaccepted(Send(d, READY).0);
  }

  lemma ClientMessageUnaccepted(c: Conn, hub: Hub, m: Message)
    requires BeforeAcceptance(c) && (AsHello(Some(m)).Some? ==> AsHello(Some(m)).value.phase != Ready)
    ensures Unaccepted(OnMessage(c, hub, m))
  {
    hide NoAcceptance, Send, AsHello, OnClientCmi, OnServerCmi, OnReadyListen, OnPendingListen, OnProposal, OnConfirm, OnChoice,
         OnPin, OnAccess;
    SendUnaccepted(c, CloseMessage(Confirm));
    ClientCmiUnaccepted(c, hub, Some(m));
    ReadyListenUnaccepted(c, hub, Some(m));
  }

  lemma ClientTimeoutUnaccepted(c0: Conn, hub: Hub)
    requires BeforeAcceptance(c0)
    ensures Unaccepted(OnTimeout(c0, hub))
  {
    hide NoAcceptance, Fail, AbortHello, AbortProtocol;
    var c := StopTimer(c0);
    FailUnaccepted(c);
    AbortUnaccepted(c);
  }

  lemma ClientOtherUnaccepted(c: Conn, safe: bool)
    requires BeforeAcceptance(c)
    ensures Unaccepted(OnAbort(c)) && Unaccepted(OnConnectionError(c)) && Unaccepted(OnClose(c, safe))
  {
    hide NoAcceptance, SetState, SendAborted, Send;
    SetStateUnaccepted(c, HelloAbort);
    AbortUnaccepted(StopTimer(Enter(c, HelloAbort)));
    SetStateUnaccepted(c.(open := false), HelloRejected);
    SetStateUnaccepted(c.(open := false), Error);
    SendUnaccepted(StopTimer(c).(shutdown := true), CloseMessage(Announce));
  }

  lemma ClientRunUnaccepted(c: Conn)
    requires c.role == Client && Unaccepted(c)
    ensures Unaccepted(OnRun(c))
  {
    hide NoAcceptance, SetState, Write, Fail;
    SetStateUnaccepted(c, CmiClientSend);
    var d := SetState(c, CmiClientSend);
    SendUnaccepted(d, CmiMessage);
    var e := Write(d, CmiMessage).0;
    SetStateUnaccepted(e, CmiClientWait);
    FailUnaccepted(e);
  }

  /** A client is accepted only by a "ready" that it receives. */
  lemma HelloOkNeedsReady(c: Conn, e: Event)
    requires Sound(c) && c.role == Client && Enabled(c, e) && HelloOk !in c.path && HelloOk in Step(c, e).path
    ensures e.kind.Receive? && AsHello(Some(e.kind.m)).Some? && AsHello(Some(e.kind.m)).value.phase == Ready
  {
    ClientBefore(c);
    var d := c.(net := e.net);
    assert BeforeAcceptance(d);
    hide AsHello, OnRun, OnMessage, OnTimeout, OnAbort, OnConnectionError, OnClose, Sound;
    match e.kind
    case Run => ClientRunUnaccepted(d);
    case Receive(m) =>
      if AsHello(Some(m)).Some? && AsHello(Some(m)).value.phase == Ready {
      } else {
        ClientMessageUnaccepted(d, e.hub, m);
      }
    case Timeout => ClientTimeoutUnaccepted(d, e.hub);
    case AbortByUser => ClientOtherUnaccepted(d, false);
    case ConnectionError => ClientOtherUnaccepted(d, false);
    case Close(safe) => ClientOtherUnaccepted(d, safe);
    case _ =>
  }

  /** A client that was not accepted has sent no proposal, and never waits for a user. */
  lemma UnacceptedClient(c: Conn)
    requires Sound(c) && c.role == Client && HelloOk !in c.path
    ensures !SentProposal(c) && c.state != HelloPendingListen
  {
    ClientBefore(c);
    if SentProposal(c) { ProposalMeansAccepted(c); }
  }

  lemma ProposalMeansAccepted(c: Conn)
    requires Sound(c) && SentProposal(c)
    ensures HelloOk in c.path
  {
    var m :| m in c.sent && Proposes(m);
    var k :| 0 <= k < |c.path| && c.path[k] == ProtClientInit;
    assert Edge(c.role, c.path[k - 1], c.path[k]);
  }

  /** A pending server has sent no "ready". */
  lemma PendingServer(c: Conn)
    requires Sound(c) && c.state == HelloPendingListen
    ensures !SentReady(c) && c.role == Server && Approved !in c.path && Complete !in c.path
  {
    var waited := AliveOnRoute(c.role, c.path, |c.path| - 1);
    assert forall i | 0 <= i < |c.path| :: c.path[i] == Stage(c.role, waited, i);
    assert |c.path| == 6 && c.role == Server;
  }

  // ---------------------------------------------------------------- a server after the event

  /** The server was accepted although it had aborted: it expects a proposal, or has failed. */
  predicate Lapsed(c: Conn) {
    && c.role == Server && (c.state == ProtServerListenProposal || c.state == Error)
    && Approved !in c.path && Complete !in c.path && !SentReady(c)
    && forall m | m in c.sent :: !m.ForeignMessage?
  }

  lemma GlitchLapses(c: Conn, e: Event)
    requires Sound(c) && Glitch(c, e)
    ensures Lapsed(Step(c, e)) && c.sent <= Step(c, e).sent && Step(c, e).localId == c.localId
  {
    PendingServer(c);
    assert forall m | m in c.sent :: !m.ForeignMessage?;
    assert |c.path| > 0;
    hide Sound;
    var a := GlitchAs(c, e);
    RefusedReady(a);
    hide *;
    LapsesBy(c, SendReady(a), Step(c, e));
  }

  /** What the event does, from the announcement of readiness on. */
  lemma GlitchAs(c: Conn, e: Event) returns (a: Conn)
    requires Glitch(c, e)
    ensures a.path == c.path + [HelloReadyInit] && a.sent == c.sent && a.role == c.role && a.localId == c.localId
    ensures a.state == HelloReadyInit && a.open && a.net == e.net
    ensures Step(c, e) == if SendReady(a).open then AcceptHello(SendReady(a)) else AbortHello(SendReady(a))
  {
    hide SendReady, AcceptHello, AbortHello;
    a := StopTimer(Enter(c.(net := e.net), HelloReadyInit));
  }

  lemma LapsesBy(c: Conn, f: Conn, r: Conn)
    requires f.role == Server && f.localId == c.localId && f.sent == c.sent + [ABORTED] && r == AcceptHello(f)
    requires f.path == c.path + [HelloReadyInit] + [HelloAbort, HelloAbortDone]
    requires !SentReady(c) && Approved !in c.path && Complete !in c.path && forall m | m in c.sent :: !m.ForeignMessage?
    ensures Lapsed(r) && c.sent <= r.sent && r.localId == c.localId
  {
    AcceptedServer(f);
    hide AcceptHello;
    assert forall m | m in f.sent :: m in c.sent || m == ABORTED;
  }

  lemma AcceptedServer(c: Conn)
    requires c.role == Server
    ensures var d := AcceptHello(c);
            && d.state == ProtServerListenProposal && d.role == Server && d.sent == c.sent && d.localId == c.localId
            && (Approved in d.path ==> Approved in c.path) && (Complete in d.path ==> Complete in c.path)
  {
  }

  lemma AbortProtocolLapses(c: Conn, reason: AbortReason)
    requires Lapsed(c)
    ensures Lapsed(AbortProtocol(c, reason)) && c.sent <= AbortProtocol(c, reason).sent && AbortProtocol(c, reason).localId == c.localId
  {
    hide Lapsed, SetState, CloseOnce, Send;
    TimerLapses(c);
    SendLapses(StopTimer(c), HandshakeErrorMessage(reason));
    ErrorLapses(Send(StopTimer(c), HandshakeErrorMessage(reason)).0);
  }

  lemma TimerLapses(c: Conn)
    requires Lapsed(c)
    ensures Lapsed(StopTimer(c))
  {
  }

  lemma SendLapses(c: Conn, m: Message)
    requires Lapsed(c) && !m.ForeignMessage? && !SaysReady(m)
    ensures var d := Send(c, m).0; Lapsed(d) && c.sent <= d.sent && d.localId == c.localId
  {
    var d := Send(c, m).0;
    assert d.sent == c.sent || d.sent == c.sent + [m];
  }

  lemma ErrorLapses(c: Conn)
    requires Lapsed(c)
    ensures var d := CloseOnce(SetState(c, Error)); Lapsed(d) && d.sent == c.sent && d.localId == c.localId
  {
    var d := SetState(c, Error);
    assert d.path == c.path || d.path == c.path + [Error];
    assert d.sent == c.sent && d.role == c.role && d.localId == c.localId;
    hide SetState;
  }

  /** Without a proposal such a server gets nowhere. */
  lemma LapsedStep(c: Conn, e: Event)
    requires Lapsed(c) && Enabled(c, e)
    requires e.kind.Receive? ==> !e.kind.m.ForeignMessage? && !Proposes(e.kind.m)
    ensures Lapsed(Step(c, e)) && c.sent <= Step(c, e).sent && Step(c, e).localId == c.localId
  {
    var d := c.(net := e.net);
    assert Lapsed(d);
    hide Lapsed, OnMessage, OnTimeout, OnClose, OnConnectionError;
    match e.kind
    case Receive(m) => LapsedMessage(d, e.hub, m);
    case Timeout => LapsedTimeout(d, e.hub);
    case Close(safe) => LapsedClose(d, safe);
    case ConnectionError => LapsedError(d);
    case _ => LapsedIdle(d, e.hub);
  }

  /** Such a server is asked by nobody any more. */
  lemma LapsedIdle(c: Conn, hub: Hub)
    requires Lapsed(c)
    ensures OnApprove(c, hub) == c && OnAbort(c) == c && c.state != CmiInitStart
  {
  }

  lemma LapsedTimeout(c: Conn, hub: Hub)
    requires Lapsed(c)
    ensures Lapsed(OnTimeout(c, hub)) && c.sent <= OnTimeout(c, hub).sent && OnTimeout(c, hub).localId == c.localId
  {
    AbortProtocolLapses(StopTimer(c), Timedout);
    hide AbortProtocol, SentReady;
  }

  lemma LapsedError(c: Conn)
    requires Lapsed(c)
    ensures var d := OnConnectionError(c); Lapsed(d) && d.sent == c.sent && d.localId == c.localId
  {
    hide SetState, CloseOnce;
    ErrorLapses(c.(open := false));
  }

  lemma LapsedMessage(c: Conn, hub: Hub, m: Message)
    requires Lapsed(c) && !m.ForeignMessage? && !Proposes(m)
    ensures Lapsed(OnMessage(c, hub, m)) && c.sent <= OnMessage(c, hub, m).sent && OnMessage(c, hub, m).localId == c.localId
  {
    AbortProtocolLapses(c, UnexpectedMessage);
    ConfirmLapses(c);
    LapsedWaits(c, hub, m);
    hide AbortProtocol, Send, Lapsed, OnWaiting;
  }

  lemma LapsedWaits(c: Conn, hub: Hub, m: Message)
    requires Lapsed(c) && !m.ForeignMessage? && !Proposes(m)
    ensures OnWaiting(c, hub, Some(m)) == c || OnWaiting(c, hub, Some(m)) == AbortProtocol(c, UnexpectedMessage)
  {
    hide AbortProtocol, Send, SentReady, OnClientCmi, OnServerCmi, OnReadyListen, OnPendingListen, OnConfirm, OnChoice, OnPin,
         OnAccess;
  }

  lemma ConfirmLapses(c: Conn)
    requires Lapsed(c)
    ensures var d := Send(c, CloseMessage(Confirm)).0;
            && Lapsed(d) && Lapsed(d.(open := false)) && Lapsed(c.(open := false)) && c.sent <= d.sent && d.localId == c.localId
  {
    SendLapses(c, CloseMessage(Confirm));
    hide Send;
  }

  lemma LapsedClose(c: Conn, safe: bool)
    requires Lapsed(c)
    ensures Lapsed(OnClose(c, safe)) && OnClose(c, safe).sent == c.sent && OnClose(c, safe).localId == c.localId
  {
  }
}
