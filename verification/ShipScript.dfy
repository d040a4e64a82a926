/**
 The common script of a client and a server whose writes succeed. A ledger says how far each end is; the
 states, everything sent and everything still on the way are functions of it, so every reachable state of
 the two ends and both channels is known exactly, for any number of prolongation rounds.
 */
module ShipScript {
  import opened Basics
  import opened ShipModel
  import opened ShipEndpoint
  import opened ShipOrder
  import opened ShipMoves
  import opened ShipSystem

  /**
   client, server: the stages of the two ends.
   ready: the server has sent its "ready".
   waits: the hello messages the server sent before it: one "pending" and then prolongation requests.
   seen: how many of those the client has received.
   readies: how many "ready" messages the server has received.
   */
  datatype Ledger = Ledger(client: nat, server: nat, ready: bool, waits: nat, seen: nat, readies: nat)

  /** A client answers every prolongation request, but not the "pending" before it. */
  function Answers(waits: nat): nat {
    if waits == 0 then 0 else waits - 1
  }

  function ClientState(l: Ledger): State {
    if l.client == 0 then CmiInitStart else if l.client == 1 then CmiClientWait
    else if l.client == 2 then HelloReadyListen else if l.client == 3 then ProtClientListenChoice
    else if l.client == 4 then PinCheckListen else if l.client == 5 || l.client == 6 then AccessMethodsRequest
    else Complete
  }

  function ServerState(l: Ledger): State {
    if l.server == 0 then CmiInitStart else if l.server == 1 then CmiServerWait
    else if l.server == 2 then (if l.ready then HelloReadyListen else HelloPendingListen)
    else if l.server == 3 then ProtServerListenProposal else if l.server == 4 then ProtServerListenConfirm
    else if l.server == 5 then PinCheckListen else if l.server == 6 || l.server == 7 then AccessMethodsRequest
    else Complete
  }

  /** How many messages each end has sent and received. */

  function ClientSent(l: Ledger): nat {
    var a := Answers(l.seen);
    if l.client == 0 then 0 else if l.client == 1 then 1 else if l.client == 2 then 2 + a else if l.client == 3 then 3 + a
    else if l.client == 4 then 5 + a else if l.client == 5 then 6 + a else 7 + a
  }

  function ServerSent(l: Ledger): nat {
    if l.server < 2 then 0 else if l.server == 2 then 1 + l.waits + (if l.ready then 1 else 0)
    else if l.server < 7 then l.waits + l.server - 1 else l.waits + 6
  }

  function ClientGot(l: Ledger): nat {
    if l.client < 2 then 0 else if l.client == 2 then 1 + l.seen else l.waits + l.client - 1
  }

  function ServerGot(l: Ledger): nat {
    if l.server < 2 then 0 else if l.server == 2 then 1 + l.readies else l.readies + l.server - 2
  }

  /** The messages of the script, by position. */

  function ClientLine(l: Ledger, id: string, k: nat): Message {
    var a := Answers(l.seen);
    if k == 0 then CmiMessage else if k <= 1 + a then READY else if k == 2 + a then ANNOUNCE
    else if k == 3 + a then SELECT else if k == 4 + a then PIN_NONE else if k == 5 + a then AccessRequestMessage
    else AccessMethodsMessage(Some(id))
  }

  function ServerLine(l: Ledger, id: string, k: nat): Message {
    if k == 0 then CmiMessage
    else if k <= l.waits then (if k == 1 then PENDING else PROLONG)
    else if k == l.waits + 1 then READY else if k == l.waits + 2 then SELECT else if k == l.waits + 3 then PIN_NONE
    else if k == l.waits + 4 then AccessRequestMessage else AccessMethodsMessage(Some(id))
  }

  /** The ledgers that occur. */
  predicate Coherent(l: Ledger) {
    && l.client <= 7 && l.server <= 8 && l.seen <= l.waits
    && ClientGot(l) <= ServerSent(l) && ServerGot(l) <= ClientSent(l)
    && (l.client < 2 ==> l.seen == 0) && (l.client >= 3 ==> l.seen == l.waits)
    && (l.server < 2 ==> !l.ready && l.waits == 0 && l.readies == 0)
    && (l.server == 2 ==> if l.ready then l.waits == 0 && l.readies == 0 else l.waits >= 1)
    && (l.server >= 3 ==> l.ready && l.readies <= 1 + Answers(l.waits))
    && (l.server >= 4 ==> l.readies == 1 + Answers(l.waits))
  }

  /** Every "ready" the client owes has been received. */
  predicate Paid(l: Ledger) {
    l.readies == 1 + Answers(l.waits)
  }

  /** What the ends have sent, by the script. */

  predicate ClientWrote(l: Ledger, id: string, sent: seq<Message>) {
    |sent| == ClientSent(l) && forall k | 0 <= k < |sent| :: sent[k] == ClientLine(l, id, k)
  }

  predicate ServerWrote(l: Ledger, id: string, sent: seq<Message>) {
    |sent| == ServerSent(l) && forall k | 0 <= k < |sent| :: sent[k] == ServerLine(l, id, k)
  }

  predicate Follows(s: System, l: Ledger) {
    && Coherent(l)
    && s.client.role == Client && s.server.role == Server
    && s.client.state == ClientState(l) && s.server.state == ServerState(l)
    && s.client.open && s.server.open && Healthy(s.client.path) && Healthy(s.server.path)
    && ClientWrote(l, s.client.localId, s.client.sent) && ServerWrote(l, s.server.localId, s.server.sent)
    && s.toServer == s.client.sent[ServerGot(l)..] && s.toClient == s.server.sent[ClientGot(l)..]
  }

  /** The messages an end goes on with. */
  predicate Accepts(c: Conn, m: Message) {
    match c.state
    case CmiClientWait => m == CmiMessage
    case CmiServerWait => m == CmiMessage
    case HelloReadyListen => m == READY || m == PENDING || m == PROLONG
    case HelloPendingListen => m == READY
    case ProtServerListenProposal => m == ANNOUNCE
    case ProtServerListenConfirm => m == SELECT
    case ProtClientListenChoice => m == SELECT
    case PinCheckListen => m == PIN_NONE
    case AccessMethodsRequest => m == AccessRequestMessage || (m.AccessMethodsMessage? && m.shipId.Some? && Knows(c, m.shipId.value))
    case _ => false
  }

  /** Each end goes on with the SHIP ID that arrives from the other one. */
  predicate Acquainted(s: System) {
    Knows(s.client, s.server.localId) && Knows(s.server, s.client.localId)
  }

  // ---------------------------------------------------------------- what is on the way

  /** The next message for the client, by its stage. */
  function NextForClient(l: Ledger, id: string): Message {
    if l.client == 1 then CmiMessage
    else if l.client == 2 then (if l.seen == l.waits then READY else if l.seen == 0 then PENDING else PROLONG)
    else if l.client == 3 then SELECT else if l.client == 4 then PIN_NONE else if l.client == 5 then AccessRequestMessage
    else AccessMethodsMessage(Some(id))
  }

  /** The next message for the server, by its stage; a "ready" that is still owed comes first. */
  function NextForServer(l: Ledger, id: string): Message {
    if l.server == 1 then CmiMessage
    else if l.server == 2 || !Paid(l) then READY
    else if l.server == 3 then ANNOUNCE else if l.server == 4 then SELECT else if l.server == 5 then PIN_NONE
    else if l.server == 6 then AccessRequestMessage else AccessMethodsMessage(Some(id))
  }

  lemma ClientHead(s: System, l: Ledger)
    requires Follows(s, l) && s.toClient != []
    ensures 1 <= l.client < 7 && s.toClient[0] == NextForClient(l, s.server.localId)
  {
  }

  lemma ServerHead(s: System, l: Ledger)
    requires Follows(s, l) && s.toServer != [] && l.server >= 1
    ensures l.server < 8 && s.toServer[0] == NextForServer(l, s.client.localId)
  {
  }

  /** In every state of the script both ends accept what comes next. */
  lemma HeadsAccepted(s: System, l: Ledger)
    requires Follows(s, l) && (l.server < 3 || Paid(l)) && Acquainted(s)
    ensures s.toClient != [] ==> Accepts(s.client, s.toClient[0])
    ensures s.toServer != [] && s.server.state != CmiInitStart ==> Accepts(s.server, s.toServer[0])
  {
    hide ClientLine, ServerLine, ClientSent, ServerSent, ClientGot, ServerGot, Healthy, Knows;
    if s.toClient != [] { ClientHead(s, l); }
    if s.toServer != [] && l.server >= 1 { ServerHead(s, l); }
  }

  // ---------------------------------------------------------------- one step of either end

  /** An end's new messages continue its lines. */
  predicate ClientContinues(l: Ledger, n: Ledger, id: string, out: seq<Message>) {
    && ClientSent(n) == ClientSent(l) + |out|
    && (forall k | 0 <= k < ClientSent(l) :: ClientLine(n, id, k) == ClientLine(l, id, k))
    && (forall k | 0 <= k < |out| :: ClientLine(n, id, ClientSent(l) + k) == out[k])
  }

  predicate ServerContinues(l: Ledger, n: Ledger, id: string, out: seq<Message>) {
    && ServerSent(n) == ServerSent(l) + |out|
    && (forall k | 0 <= k < ServerSent(l) :: ServerLine(n, id, k) == ServerLine(l, id, k))
    && (forall k | 0 <= k < |out| :: ServerLine(n, id, ServerSent(l) + k) == out[k])
  }

  lemma ClientWritesMore(l: Ledger, n: Ledger, id: string, sent: seq<Message>, out: seq<Message>)
    requires ClientWrote(l, id, sent) && ClientContinues(l, n, id, out)
    ensures ClientWrote(n, id, sent + out)
  {
  }

  lemma ServerWritesMore(l: Ledger, n: Ledger, id: string, sent: seq<Message>, out: seq<Message>)
    requires ServerWrote(l, id, sent) && ServerContinues(l, n, id, out)
    ensures ServerWrote(n, id, sent + out)
  {
  }

  lemma ServerStays(l: Ledger, n: Ledger, id: string, sent: seq<Message>)
    requires n.server == l.server && n.ready == l.ready && n.waits == l.waits && n.readies == l.readies
    requires ServerWrote(l, id, sent)
    ensures ServerWrote(n, id, sent) && ServerGot(n) == ServerGot(l) && ServerState(n) == ServerState(l)
  {
  }

  lemma ClientStays(l: Ledger, n: Ledger, id: string, sent: seq<Message>)
    requires n.client == l.client && n.seen == l.seen && ClientWrote(l, id, sent)
    ensures ClientWrote(n, id, sent) && ClientState(n) == ClientState(l)
  {
  }

  /** A channel after its reader took some messages and its writer added others. */
  lemma ChannelMoves(sent: seq<Message>, out: seq<Message>, read: nat, got: nat)
    requires read + got <= |sent|
    ensures (sent + out)[read..] == sent[read..] + out && sent[read + got..] == sent[read..][got..]
  {
  }

  lemma ClientFollows(s: System, l: Ledger, n: Ledger, d: Conn, out: seq<Message>, got: nat)
    requires Follows(s, l) && Coherent(n) && got <= |s.toClient| && ClientGot(n) == ClientGot(l) + got
    requires Moves(s.client, d, ClientState(n), out)
    requires ClientContinues(l, n, s.client.localId, out)
    requires n.server == l.server && n.ready == l.ready && n.waits == l.waits && n.readies == l.readies
    ensures Follows(System(d, s.server, s.toServer + News(s.client.sent, d.sent), s.toClient[got..]), n)
  {
    CoherentCounts(s, l);
    hide Coherent, ServerSent, ClientGot, ServerGot, ClientSent, Healthy, ServerState, ClientState, ClientWrote,
         ServerWrote, ClientContinues;
    ServerStays(l, n, s.server.localId, s.server.sent);
    ClientWritesMore(l, n, s.client.localId, s.client.sent, out);
    assert News(s.client.sent, d.sent) == out;
    ChannelMoves(s.client.sent, out, ServerGot(l), 0);
    ChannelMoves(s.server.sent, [], ClientGot(l), got);
  }

  lemma CoherentCounts(s: System, l: Ledger)
    requires Follows(s, l)
    ensures ServerGot(l) <= |s.client.sent| && ClientGot(l) <= |s.server.sent|
  {
  }

  lemma ServerFollows(s: System, l: Ledger, n: Ledger, d: Conn, out: seq<Message>, got: nat)
    requires Follows(s, l) && Coherent(n) && got <= |s.toServer| && ServerGot(n) == ServerGot(l) + got
    requires Moves(s.server, d, ServerState(n), out)
    requires ServerContinues(l, n, s.server.localId, out)
    requires n.client == l.client && n.seen == l.seen && ClientGot(n) == ClientGot(l)
    ensures Follows(System(s.client, d, s.toServer[got..], s.toClient + News(s.server.sent, d.sent)), n)
  {
    CoherentCounts(s, l);
    hide Coherent, ServerSent, ClientGot, ServerGot, ClientSent, Healthy, ServerState, ClientState, ClientWrote,
         ServerWrote, ServerContinues;
    ClientStays(l, n, s.client.localId, s.client.sent);
    ServerWritesMore(l, n, s.server.localId, s.server.sent, out);
    assert News(s.server.sent, d.sent) == out;
    ChannelMoves(s.server.sent, out, ClientGot(l), 0);
    ChannelMoves(s.client.sent, [], ServerGot(l), got);
  }

  // ---------------------------------------------------------------- the steps of the script

  /** The client receives its next message. */
  function AfterClient(l: Ledger): Ledger {
    if l.client == 2 && l.seen < l.waits then l.(seen := l.seen + 1) else l.(client := l.client + 1)
  }

  function ClientOut(l: Ledger, id: string): seq<Message> {
    if l.client == 1 then [READY]
    else if l.client == 2 then (if l.seen == l.waits then [ANNOUNCE] else if l.seen == 0 then [] else [READY])
    else if l.client == 3 then [SELECT, PIN_NONE] else if l.client == 4 then [AccessRequestMessage]
    else if l.client == 5 then [AccessMethodsMessage(Some(id))] else []
  }

  /** The server receives its next message; ready is what it decides when that is the first one. */
  function AfterServer(l: Ledger, ready: bool): Ledger {
    if l.server == 1 then l.(server := 2, ready := ready, waits := if ready then 0 else 1)
    else if l.server == 2 && !l.ready then l.(readies := l.readies + 1)
    else if l.server == 2 then l.(server := 3, readies := 1)
    else l.(server := l.server + 1)
  }

  function ServerOut(l: Ledger, ready: bool, id: string): seq<Message> {
    if l.server == 1 then [CmiMessage, if ready then READY else PENDING]
    else if l.server == 3 then [SELECT] else if l.server == 4 then [PIN_NONE] else if l.server == 5 then [AccessRequestMessage]
    else if l.server == 6 then [AccessMethodsMessage(Some(id))] else []
  }

  lemma ClientScript(l: Ledger, id: string)
    requires Coherent(l) && ClientGot(l) < ServerSent(l)
    ensures Coherent(AfterClient(l)) && ClientGot(AfterClient(l)) == ClientGot(l) + 1
    ensures ClientContinues(l, AfterClient(l), id, ClientOut(l, id))
  {
  }

  lemma ServerCounts(l: Ledger, ready: bool)
    requires Coherent(l) && ServerGot(l) < ClientSent(l) && l.server >= 1 && (l.server >= 3 ==> Paid(l))
    ensures var n := AfterServer(l, ready);
            && ServerGot(n) == ServerGot(l) + 1 && ClientGot(n) == ClientGot(l) && ClientSent(n) == ClientSent(l)
            && ServerSent(n) == ServerSent(l) + |ServerOut(l, ready, "")|
  {
  }

  lemma ServerCoherent(l: Ledger, ready: bool)
    requires Coherent(l) && ServerGot(l) < ClientSent(l) && l.server >= 1 && (l.server >= 3 ==> Paid(l))
    ensures Coherent(AfterServer(l, ready))
  {
  }

  lemma ServerScript(l: Ledger, ready: bool, id: string)
    requires Coherent(l) && ServerGot(l) < ClientSent(l) && l.server >= 1 && (l.server >= 3 ==> Paid(l))
    ensures ServerContinues(l, AfterServer(l, ready), id, ServerOut(l, ready, id))
  {
  }

  lemma DecisionScript(l: Ledger, id: string)
    requires Coherent(l) && l.server == 2 && !l.ready
    ensures var n := l.(waits := l.waits + 1);
            Coherent(n) && ServerContinues(l, n, id, [PROLONG]) && ClientGot(n) == ClientGot(l) && ServerGot(n) == ServerGot(l)
    ensures var n := l.(server := 3, ready := true);
            Coherent(n) && ServerContinues(l, n, id, [READY]) && ClientGot(n) == ClientGot(l) && ServerGot(n) == ServerGot(l)
  {
  }

  lemma ClientListenStep(c: Conn, l: Ledger, hub: Hub)
    requires c.state == HelloReadyListen && c.role == Client && c.open && Healthy(c.path)
    requires l.client == 2 && l.seen <= l.waits
    ensures var d := Received(c, hub, NextForClient(l, ""));
            Moves(c, d, ClientState(AfterClient(l)), ClientOut(l, c.localId)) && d.remoteId == c.remoteId
  {
    hide Healthy, Moves, Received;
    if l.seen == l.waits { ReadyMoves(c, hub); } else { ReadyListenMoves(c, hub); }
  }

  lemma ClientHelloStep(s: System, l: Ledger, hub: Hub)
    requires Follows(s, l) && s.toClient != [] && l.client <= 2
    ensures var d := Received(s.client, hub, s.toClient[0]);
            && Moves(s.client, d, ClientState(AfterClient(l)), ClientOut(l, s.client.localId))
            && (Knows(s.client, s.server.localId) ==> Knows(d, s.server.localId))
  {
    assert l.seen <= l.waits;
    hide ClientWrote, ServerWrote, ClientSent, ServerSent, ClientGot, ServerGot, ServerState, Healthy, Moves, Received, Coherent;
    ClientHead(s, l);
    var c := s.client;
    if l.client == 1 {
      ClientCmiMoves(c, hub);
    } else {
      assert NextForClient(l, s.server.localId) == NextForClient(l, "");
      ClientListenStep(c, l, hub);
    }
  }

  lemma ClientLaterStep(s: System, l: Ledger, hub: Hub)
    requires Follows(s, l) && s.toClient != [] && l.client >= 3 && (l.client == 6 ==> Knows(s.client, s.server.localId))
    ensures var d := Received(s.client, hub, s.toClient[0]);
            && Moves(s.client, d, ClientState(AfterClient(l)), ClientOut(l, s.client.localId))
            && (Knows(s.client, s.server.localId) ==> Knows(d, s.server.localId))
  {
    hide ClientWrote, ServerWrote, ClientSent, ServerSent, ClientGot, ServerGot, ServerState, Healthy, Moves, Received, Coherent;
    ClientHead(s, l);
    var c := s.client;
    if l.client == 3 {
      ChoiceMoves(c, hub);
    } else if l.client == 4 {
      PinMoves(c, hub);
    } else if l.client == 5 {
      AccessRequestMoves(c, hub);
    } else {
      FinishMoves(c, hub, s.server.localId);
    }
  }

  lemma ServerHelloStep(s: System, l: Ledger, hub: Hub)
    requires Follows(s, l) && s.toServer != [] && 1 <= l.server <= 2
    requires l.server == 1 ==> hub.paired || hub.autoAccept || hub.waitAllowed
    ensures var d := Received(s.server, hub, s.toServer[0]);
            && Moves(s.server, d, ServerState(AfterServer(l, hub.paired || hub.autoAccept)),
                     ServerOut(l, hub.paired || hub.autoAccept, s.server.localId))
            && (Knows(s.server, s.client.localId) ==> Knows(d, s.client.localId))
  {
    hide ClientWrote, ServerWrote, ClientSent, ServerSent, ClientGot, ServerGot, ClientState, Healthy, Moves, Received, Coherent;
    ServerHead(s, l);
    var c := s.server;
    if l.server == 1 {
      ServerCmiMoves(c, hub);
    } else if l.ready {
      ReadyMoves(c, hub);
    } else {
      PendingListenMoves(c, hub);
    }
  }

  lemma ServerLaterStep(s: System, l: Ledger, hub: Hub)
    requires Follows(s, l) && s.toServer != [] && l.server >= 3 && Paid(l)
    requires l.server == 7 ==> Knows(s.server, s.client.localId)
    ensures var d := Received(s.server, hub, s.toServer[0]);
            && Moves(s.server, d, ServerState(AfterServer(l, hub.paired || hub.autoAccept)),
                     ServerOut(l, hub.paired || hub.autoAccept, s.server.localId))
            && (Knows(s.server, s.client.localId) ==> Knows(d, s.client.localId))
  {
    hide ClientWrote, ServerWrote, ClientSent, ServerSent, ClientGot, ServerGot, ClientState, Healthy, Moves, Received, Coherent,
         Answers;
    ServerHead(s, l);
    var c := s.server;
    if l.server == 3 {
      ProposalMoves(c, hub);
    } else if l.server == 4 {
      ConfirmMoves(c, hub);
    } else if l.server == 5 {
      PinMoves(c, hub);
    } else if l.server == 6 {
      AccessRequestMoves(c, hub);
    } else {
      FinishMoves(c, hub, s.client.localId);
    }
  }

  /** What delivering a message does to the system. */
  lemma DeliveryActs(s: System, hub: Hub)
    ensures s.toClient != [] && s.client.state != CmiInitStart ==>
              var a := Deliver(Client, hub, []);
              var d := Received(s.client, hub, s.toClient[0]);
              CanAct(s, a) && Act(s, a) == System(d, s.server, s.toServer + News(s.client.sent, d.sent), s.toClient[1..])
    ensures s.toServer != [] && s.server.state != CmiInitStart ==>
              var a := Deliver(Server, hub, []);
              var d := Received(s.server, hub, s.toServer[0]);
              CanAct(s, a) && Act(s, a) == System(s.client, d, s.toServer[1..], s.toClient + News(s.server.sent, d.sent))
  {
  }

  lemma DeliverToClient(s: System, l: Ledger, hub: Hub)
    requires Follows(s, l) && s.toClient != [] && (l.client == 6 ==> Knows(s.client, s.server.localId))
    ensures var a := Deliver(Client, hub, []); CanAct(s, a) && Follows(Act(s, a), AfterClient(l))
    ensures Acquainted(s) ==> Acquainted(Act(s, Deliver(Client, hub, [])))
  {
    assert ClientGot(l) < ServerSent(l) && Coherent(l);
    assert s.client.state != CmiInitStart by { ClientHead(s, l); }
    hide *;
    DeliveryActs(s, hub);
    if l.client <= 2 { ClientHelloStep(s, l, hub); } else { ClientLaterStep(s, l, hub); }
    ClientScript(l, s.client.localId);
    AfterClientKeeps(l);
    var d := Received(s.client, hub, s.toClient[0]);
    ClientFollows(s, l, AfterClient(l), d, ClientOut(l, s.client.localId), 1);
  }

  lemma AfterClientKeeps(l: Ledger)
    ensures var n := AfterClient(l);
            n.server == l.server && n.ready == l.ready && n.waits == l.waits && n.readies == l.readies
  {
  }

  lemma AfterServerKeeps(l: Ledger, ready: bool)
    ensures AfterServer(l, ready).client == l.client && AfterServer(l, ready).seen == l.seen
  {
  }

  lemma DeliverToServer(s: System, l: Ledger, hub: Hub)
    requires Follows(s, l) && s.toServer != [] && l.server >= 1 && (l.server >= 3 ==> Paid(l))
    requires l.server == 1 ==> hub.paired || hub.autoAccept || hub.waitAllowed
    requires l.server == 7 ==> Knows(s.server, s.client.localId)
    ensures var a := Deliver(Server, hub, []); CanAct(s, a) && Follows(Act(s, a), AfterServer(l, hub.paired || hub.autoAccept))
    ensures Acquainted(s) ==> Acquainted(Act(s, Deliver(Server, hub, [])))
  {
    var ready := hub.paired || hub.autoAccept;
    assert ServerGot(l) < ClientSent(l) && Coherent(l) && s.server.state != CmiInitStart;
    hide *;
    DeliveryActs(s, hub);
    if l.server <= 2 { ServerHelloStep(s, l, hub); } else { ServerLaterStep(s, l, hub); }
    ServerCounts(l, ready);
    ServerCoherent(l, ready);
    ServerScript(l, ready, s.server.localId);
    AfterServerKeeps(l, ready);
    var d := Received(s.server, hub, s.toServer[0]);
    ServerFollows(s, l, AfterServer(l, ready), d, ServerOut(l, ready, s.server.localId), 1);
  }

  lemma RunOfClient(s: System, l: Ledger, hub: Hub)
    requires Follows(s, l) && l.client == 0
    ensures var a := Local(Client, Event(Run, hub, [])); CanAct(s, a) && Follows(Act(s, a), l.(client := 1))
    ensures Acquainted(s) ==> Acquainted(Act(s, Local(Client, Event(Run, hub, []))))
  {
    RunMoves(s.client, hub);
    var n := l.(client := 1);
    assert Coherent(n) && ClientGot(n) == ClientGot(l) && ClientContinues(l, n, s.client.localId, [CmiMessage]);
    assert Enabled(s.client, Event(Run, hub, []));
    hide Moves, ClientContinues, Coherent, ClientGot, News, Step;
    ClientFollows(s, l, n, Step(s.client, Event(Run, hub, [])), [CmiMessage], 0);
  }

  lemma RunOfServer(s: System, l: Ledger, hub: Hub)
    requires Follows(s, l) && l.server == 0
    ensures var a := Local(Server, Event(Run, hub, [])); CanAct(s, a) && Follows(Act(s, a), l.(server := 1))
    ensures Acquainted(s) ==> Acquainted(Act(s, Local(Server, Event(Run, hub, []))))
  {
    RunMoves(s.server, hub);
    var n := l.(server := 1);
    assert Coherent(n) && ServerGot(n) == ServerGot(l) && ClientGot(n) == ClientGot(l);
    assert ServerContinues(l, n, s.server.localId, []);
    assert Enabled(s.server, Event(Run, hub, []));
    hide Moves, ServerContinues, Coherent, ClientGot, ServerGot, News, Step;
    ServerFollows(s, l, n, Step(s.server, Event(Run, hub, [])), [], 0);
  }

  /** The server asks for more time. */
  lemma Prolongs(s: System, l: Ledger, hub: Hub)
    requires Follows(s, l) && l.server == 2 && !l.ready && s.server.timer.running && hub.waitAllowed
    ensures var a := Local(Server, Event(Timeout, hub, [])); CanAct(s, a) && Follows(Act(s, a), l.(waits := l.waits + 1))
    ensures Acquainted(s) ==> Acquainted(Act(s, Local(Server, Event(Timeout, hub, []))))
  {
    ProlongMoves(s.server, hub);
    var n := l.(waits := l.waits + 1);
    DecisionScript(l, s.server.localId);
    assert ServerState(n) == HelloPendingListen && Enabled(s.server, Event(Timeout, hub, []));
    hide Moves, ServerContinues, Coherent, ClientGot, ServerGot, News, Step, ServerState;
    ServerFollows(s, l, n, Step(s.server, Event(Timeout, hub, [])), [PROLONG], 0);
  }

  /** The user of the server approves. */
  lemma Approves(s: System, l: Ledger, hub: Hub)
    requires Follows(s, l) && l.server == 2 && !l.ready && hub.paired && hub.waitAllowed
    ensures var a := Local(Server, Event(Approve, hub, []));
            CanAct(s, a) && Follows(Act(s, a), l.(server := 3, ready := true))
    ensures Acquainted(s) ==> Acquainted(Act(s, Local(Server, Event(Approve, hub, []))))
  {
    ApproveMoves(s.server, hub);
    var n := l.(server := 3, ready := true);
    DecisionScript(l, s.server.localId);
    assert ServerState(n) == ProtServerListenProposal && Enabled(s.server, Event(Approve, hub, []));
    hide Moves, ServerContinues, Coherent, ClientGot, ServerGot, News, Step, ServerState;
    ServerFollows(s, l, n, Step(s.server, Event(Approve, hub, [])), [READY], 0);
  }
}
