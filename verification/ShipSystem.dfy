/**
 A client and a server joined by two first-in first-out channels. Any interleaving of deliveries,
 timeouts, user decisions, failing writes and broken connections is a run; a channel whose messages are
 never delivered is one that broke.
 */
module ShipSystem {
  import opened Basics
  import opened ShipModel
  import opened ShipEndpoint
  import opened ShipLapse
  import opened ShipOrder
  import W = ShipWire

  datatype System = System(client: Conn, server: Conn, toServer: seq<Message>, toClient: seq<Message>)

  datatype Action =
    | Local(end: Role, event: Event)
    | Deliver(end: Role, hub: Hub, net: seq<bool>)

  function End(s: System, r: Role): Conn {
    if r == Client then s.client else s.server
  }

  function Channel(s: System, to: Role): seq<Message> {
    if to == Client then s.toClient else s.toServer
  }

  /** The event an action is for the end it happens at. */
  function EventOf(s: System, a: Action): Event
    requires a.Deliver? ==> Channel(s, a.end) != []
  {
    match a
    case Local(_, e) => e
    case Deliver(end, hub, net) => Event(Incoming(Channel(s, end)[0]), hub, net)
  }

  predicate CanAct(s: System, a: Action) {
    && (a.Deliver? ==> Channel(s, a.end) != [])
    && (a.Local? ==> !a.event.kind.Receive?)
    && Enabled(End(s, a.end), EventOf(s, a))
  }

  /** What an end has sent beyond what it had sent before. */
  function News(before: seq<Message>, after: seq<Message>): seq<Message> {
    if |before| <= |after| then after[|before|..] else []
  }

  function Act(s: System, a: Action): System
    requires CanAct(s, a)
  {
    var c := End(s, a.end);
    var d := Step(c, EventOf(s, a));
    var inbox := if a.Deliver? then Channel(s, a.end)[1..] else Channel(s, a.end);
    if a.end == Client
    then System(d, s.server, s.toServer + News(c.sent, d.sent), inbox)
    else System(s.client, d, inbox, s.toClient + News(c.sent, d.sent))
  }

  predicate Start(s: System) {
    && Initial(s.client) && s.client.role == Client && Initial(s.server) && s.server.role == Server
    && s.toServer == [] && s.toClient == []
  }

  /** Everything may happen. */
  predicate SystemRun(s: System, acts: seq<Action>)
    decreases |acts|
  {
    acts == []
    || (CanAct(s, acts[0]) && SystemRun(Act(s, acts[0]), acts[1..]))
  }

  function After(s: System, acts: seq<Action>): System
    requires SystemRun(s, acts)
    decreases |acts|
  {
    if acts == [] then s else After(Act(s, acts[0]), acts[1..])
  }

  // ---------------------------------------------------------------- agreement

  predicate SentMethods(c: Conn) {
    exists m | m in c.sent :: m.AccessMethodsMessage?
  }

  predicate Delivers(from: Conn, channel: seq<Message>) {
    forall m | m in channel :: m in from.sent
  }

  /** Both ends keep to the order of states, and each was led on by what the other one sent. */
  predicate Linked(s: System) {
    && Sound(s.client) && Sound(s.server) && s.client.role == Client && s.server.role == Server
    && Delivers(s.client, s.toServer) && Delivers(s.server, s.toClient)
    && (HelloOk in s.client.path ==> SentReady(s.server))
    && (Approved in s.client.path ==> SentMethods(s.server))
    && (Approved in s.server.path ==> SentMethods(s.client))
  }

  /** In the access methods state, only the peer's access methods lead on. */
  lemma ApprovedNeedsMethods(c: Conn, e: Event)
    requires Sound(c) && Enabled(c, e) && !Glitch(c, e)
    requires Approved in Step(c, e).path && Approved !in c.path
    ensures e.kind.Receive? && AsAccess(Some(e.kind.m)).Methods?
  {
    StepKeeps(c, e);
    assert c.state == AccessMethodsRequest;
    if !(e.kind.Receive? && AsAccess(Some(e.kind.m)).Methods?) {
      WaitsForMethods(c, e);
      assert false;
    }
  }

  lemma WaitsForMethods(c: Conn, e: Event)
    requires c.state == AccessMethodsRequest && Enabled(c, e)
    requires e.kind.Receive? ==> !AsAccess(Some(e.kind.m)).Methods?
    requires Approved in Step(c, e).path
    ensures Approved in c.path
  {
    hide AsAccess, SetState, Send;
    var d := c.(net := e.net);
    forall x: Conn | Approved in Fail(x).path ensures Approved in x.path { FailAddsError(x); }
    forall x: Conn, m: Message ensures Send(x, m).0.path == x.path { SendAddsNothing(x, m); }
    ErrorAdds(d.(open := false));
    hide Fail;
  }

  lemma FailAddsError(c: Conn)
    requires Approved in Fail(c).path
    ensures Approved in c.path
  {
  }

  lemma ErrorAdds(c: Conn)
    ensures Approved in CloseOnce(SetState(c, Error)).path ==> Approved in c.path
  {
  }

  lemma SendAddsNothing(c: Conn, m: Message)
    ensures Send(c, m).0.path == c.path
  {
  }

  lemma DeliversMore(from: Conn, d: Conn, channel: seq<Message>)
    requires Delivers(from, channel) && from.sent <= d.sent
    ensures Delivers(d, channel + News(from.sent, d.sent))
    ensures (SentMethods(from) ==> SentMethods(d)) && (SentReady(from) ==> SentReady(d))
  {
  }

  /** What a peer has sent says the same when it arrives, apart from a SHIP ID. */
  lemma HelloArrives(peer: Conn, m: Message)
    requires m in peer.sent && !m.ForeignMessage? && Incoming(m).Receive?
    requires AsHello(Some(Incoming(m).m)).Some? && AsHello(Some(Incoming(m).m)).value.phase == Ready
    ensures SentReady(peer)
  {
    W.ArrivesAlike(m);
    hide W.ArrivingId;
    assert SaysReady(m);
  }

  lemma ActLinks(s: System, a: Action)
    requires Linked(s) && CanAct(s, a) && !Glitch(End(s, a.end), EventOf(s, a))
    ensures Linked(Act(s, a))
  {
    var c := End(s, a.end);
    var e := EventOf(s, a);
    var d := Step(c, e);
    StepKeeps(c, e);
    DeliversMore(c, d, if a.end == Client then s.toServer else s.toClient);
    LedOn(s, a);
    hide Step, Glitch, Enabled, Recorded, SentReady, SentMethods;
  }

  /** What leads an end on has been sent by the other one. */
  lemma LedOn(s: System, a: Action)
    requires Linked(s) && CanAct(s, a) && !Glitch(End(s, a.end), EventOf(s, a))
    ensures var peer := if a.end == Client then s.server else s.client;
            var d := Step(End(s, a.end), EventOf(s, a));
            && (a.end == Client && HelloOk in d.path ==> SentReady(peer)) && (Approved in d.path ==> SentMethods(peer))
  {
    var c := End(s, a.end);
    var e := EventOf(s, a);
    var peer := if a.end == Client then s.server else s.client;
    hide Step, Glitch, Enabled, Recorded, SentReady, SentMethods, Incoming;
    if a.end == Client && HelloOk in Step(c, e).path && HelloOk !in c.path {
      HelloOkNeedsReady(c, e);
      NoForeign(peer);
      HelloArrives(peer, Channel(s, a.end)[0]);
    }
    if Approved in Step(c, e).path && Approved !in c.path {
      ApprovedNeedsMethods(c, e);
      MethodsArrive(peer, Channel(s, a.end)[0]);
    }
  }

  lemma NoForeign(c: Conn)
    requires Sound(c)
    ensures forall m | m in c.sent :: !m.ForeignMessage?
  {
  }

  lemma MethodsArrive(peer: Conn, m: Message)
    requires Sound(peer) && m in peer.sent && Incoming(m).Receive? && AsAccess(Some(Incoming(m).m)).Methods?
    ensures SentMethods(peer)
  {
    NoForeign(peer);
    W.ArrivesAlike(m);
    hide W.ArrivingId, Sound;
    assert m.AccessMethodsMessage?;
  }

  // ---------------------------------------------------------------- after the event that breaks the order

  /** The server was accepted after its abort; the client was not, and has nothing to go on with. */
  predicate Lost(s: System) {
    && Sound(s.client) && s.client.role == Client && HelloOk !in s.client.path && Lapsed(s.server)
    && Delivers(s.client, s.toServer) && Delivers(s.server, s.toClient)
  }

  /** One of the two holds in every run. */
  predicate Joined(s: System) {
    Linked(s) || Lost(s)
  }

  lemma GlitchLoses(s: System, a: Action)
    requires Linked(s) && CanAct(s, a) && Glitch(End(s, a.end), EventOf(s, a))
    ensures Lost(Act(s, a))
  {
    var c := End(s, a.end);
    var e := EventOf(s, a);
    PendingServer(c);
    GlitchLapses(c, e);
    DeliversMore(c, Step(c, e), s.toClient);
    hide Step, Glitch, Enabled, Kept, Lapsed, SentReady, SentMethods;
  }

  lemma LostClientActs(s: System, a: Action)
    requires Lost(s) && CanAct(s, a) && a.end == Client
    ensures Lost(Act(s, a))
  {
    var c := s.client;
    var e := EventOf(s, a);
    var d := Step(c, e);
    UnacceptedClient(c);
    StepKeeps(c, e);
    DeliversMore(c, d, s.toServer);
    if HelloOk in d.path {
      HelloOkNeedsReady(c, e);
      HelloArrives(s.server, Channel(s, Client)[0]);
    }
    hide Step, Glitch, Enabled, Recorded, SentReady, SentMethods;
  }

  lemma LostServerActs(s: System, a: Action)
    requires Lost(s) && CanAct(s, a) && a.end == Server
    ensures Lost(Act(s, a))
  {
    var c := s.server;
    var e := EventOf(s, a);
    UnacceptedClient(s.client);
    if e.kind.Receive? { NoProposalArrives(s.client, Channel(s, Server)[0]); }
    LapsedStep(c, e);
    DeliversMore(c, Step(c, e), s.toClient);
    hide Step, Enabled, Kept, Lapsed, SentReady, SentMethods, SentProposal;
  }

  lemma NoProposalArrives(peer: Conn, m: Message)
    requires Sound(peer) && m in peer.sent && !SentProposal(peer) && Incoming(m).Receive?
    ensures !Incoming(m).m.ForeignMessage? && !Proposes(Incoming(m).m)
  {
    W.ArrivesAlike(m);
    hide W.ArrivingId;
  }

  lemma ActJoins(s: System, a: Action)
    requires Joined(s) && CanAct(s, a)
    ensures Joined(Act(s, a))
  {
    if Linked(s) {
      if Glitch(End(s, a.end), EventOf(s, a)) { GlitchLoses(s, a); } else { ActLinks(s, a); }
    } else if a.end == Client {
      LostClientActs(s, a);
    } else {
      LostServerActs(s, a);
    }
    hide Linked, Lost, Act, CanAct;
  }

  lemma {:induction false} RunJoins(s: System, acts: seq<Action>)
    requires Joined(s) && SystemRun(s, acts)
    ensures Joined(After(s, acts))
    decreases |acts|
  {
    hide Joined, CanAct, Act;
    if acts != [] {
      ActJoins(s, acts[0]);
      RunJoins(Act(s, acts[0]), acts[1..]);
    }
  }

  predicate AbortedInHello(c: Conn) {
    || HelloAbort in c.path || HelloAbortDone in c.path || HelloRemoteAbortDone in c.path || HelloRejected in c.path
  }

  /** The end has gone through hello, the protocol handshake and the PIN check, and aborted none of them. */
  predicate PassedHandshake(c: Conn) {
    && HelloOk in c.path && (ProtClientOk in c.path || ProtServerOk in c.path) && PinCheckOk in c.path
    && !AbortedInHello(c)
  }

  lemma MethodsMeanPassed(c: Conn)
    requires Sound(c) && AccessMethodsRequest in c.path
    ensures PassedHandshake(c)
  {
    var p := c.path;
    var k :| 0 <= k < |p| && p[k] == AccessMethodsRequest;
    var waited := AliveOnRoute(c.role, p, k);
    RouteBeforeAccess(c.role, waited, k);
    forall j | 0 <= j < |p| ensures p[j] != HelloAbort && p[j] != HelloAbortDone && p[j] != HelloRemoteAbortDone && p[j] != HelloRejected {
      if j <= k {
        if Dead(p[j]) { DeadStaysDead(c.role, p, j, k); }
      } else {
        NoAbortAfter(c, waited, k, j);
      }
    }
  }

  lemma RouteBeforeAccess(role: Role, waited: bool, k: nat)
    requires k < RouteLength(role, waited) && Stage(role, waited, k) == AccessMethodsRequest
    ensures var o := k - 7; o >= 1 && Stage(role, waited, k - 1) == PinCheckOk
    ensures Stage(role, waited, k - 4) == if role == Client then ProtClientOk else ProtServerOk
    ensures Stage(role, waited, if role == Client then k - 7 else k - 8) == HelloOk
    ensures forall i | k <= i < RouteLength(role, waited) ::
              Stage(role, waited, i) != HelloReadyListen && Stage(role, waited, i) != HelloPendingListen
  {
  }

  lemma NoAbortAfter(c: Conn, waited: bool, k: nat, j: nat)
    requires Sound(c) && k < j < |c.path| && k < RouteLength(c.role, waited)
    requires Stage(c.role, waited, k) == AccessMethodsRequest
    requires forall i | 0 <= i <= k :: c.path[i] == Stage(c.role, waited, i)
    ensures c.path[j] != HelloAbort && c.path[j] != HelloAbortDone && c.path[j] != HelloRemoteAbortDone
    ensures c.path[j] != HelloRejected
  {
    RouteBeforeAccess(c.role, waited, k);
    var h := if c.role == Client then k - 7 else k - 8;
    assert c.path[h] == HelloOk;
    assert Edge(c.role, c.path[j - 1], c.path[j]);
    assert c.path[j] != HelloAbort && (j - 1 > h ==> c.path[j - 1] != HelloAbort);
    if !Dead(c.path[j - 1]) {
      var w := AliveOnRoute(c.role, c.path, j - 1);
      RouteBeforeAccess(c.role, w, k);
    }
  }

  /**
   Under every interleaving of deliveries, timeouts, user decisions, failing writes and broken
   connections, also when the order of states is broken at an end: when one end has completed, the other has passed hello, the protocol handshake and the
   PIN check, and an end that aborted in hello has no peer that completed.
   */
  lemma Agreement(s: System, acts: seq<Action>)
    requires Start(s) && SystemRun(s, acts)
    ensures Complete in After(s, acts).client.path ==> PassedHandshake(After(s, acts).server)
    ensures Complete in After(s, acts).server.path ==> PassedHandshake(After(s, acts).client)
    ensures AbortedInHello(After(s, acts).client) ==> Complete !in After(s, acts).server.path
    ensures AbortedInHello(After(s, acts).server) ==> Complete !in After(s, acts).client.path
  {
    assert Linked(s) by { StartLinked(s); }
    RunJoins(s, acts);
    var t := After(s, acts);
    hide SystemRun, After;
    if Linked(t) {
      CompletionAgrees(t.client, t.server);
      CompletionAgrees(t.server, t.client);
    } else {
      LostNeverCompletes(t);
    }
  }

  lemma StartLinked(s: System)
    requires Start(s)
    ensures Linked(s)
  {
  }

  lemma LostNeverCompletes(s: System)
    requires Lost(s)
    ensures Complete !in s.client.path && Complete !in s.server.path
    ensures Approved !in s.client.path && Approved !in s.server.path
  {
    ClientBefore(s.client);
    UnacceptedNeverApproved(s.client);
  }

  lemma UnacceptedNeverApproved(c: Conn)
    requires Sound(c) && HelloOk !in c.path
    ensures Approved !in c.path && Complete !in c.path
  {
    if Approved in c.path || Complete in c.path { ApprovedWasAccepted(c); }
  }

  lemma ApprovedWasAccepted(c: Conn)
    requires Sound(c) && (Approved in c.path || Complete in c.path)
    ensures HelloOk in c.path
  {
    var k :| 0 <= k < |c.path| && (c.path[k] == Approved || c.path[k] == Complete);
    var waited := AliveOnRoute(c.role, c.path, k);
    var h := if c.role == Client then 7 else if waited then 8 else 6;
    assert k >= h && Stage(c.role, waited, h) == HelloOk;
  }

  lemma CompletionAgrees(c: Conn, peer: Conn)
    requires Sound(c) && Sound(peer) && (Approved in c.path ==> SentMethods(peer))
    ensures Complete in c.path ==> PassedHandshake(peer)
  {
    if Complete in c.path {
      var k :| 0 <= k < |c.path| && c.path[k] == Complete;
      assert Edge(c.role, c.path[k - 1], c.path[k]);
      assert Approved in c.path;
      MethodsMeanPassed(peer);
    }
  }
}
