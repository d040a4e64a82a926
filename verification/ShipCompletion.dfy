/**
 What the SHIP IDs of the two ends have to do with it: safety and completion hold for exactly those pairs of
 ends in which each goes on with the SHIP ID that arrives from the other one. The SHIP ID is free text, and
 what arrives is not always what was sent (ShipWire).
 */
module ShipCompletion {
  import opened Basics
  import opened ShipModel
  import opened ShipEndpoint
  import opened ShipOrder
  import opened ShipMoves
  import opened ShipSystem
  import opened ShipScript
  import opened ShipSafety
  import R = EebusRoundTrip
  import W = ShipWire

  // ---------------------------------------------------------------- one event and the known SHIP ID

  /** The primitive effects leave the known SHIP ID alone. */
  lemma PrimitivesKeepName(c: Conn, m: Message, s: State)
    ensures Send(c, m).0.remoteId == c.remoteId && SetState(c, s).remoteId == c.remoteId
    ensures CloseOnce(c).remoteId == c.remoteId && StopTimer(c).remoteId == c.remoteId
  {
  }

  lemma FailKeepsName(c: Conn)
    ensures Fail(c).remoteId == c.remoteId
  {
    hide SetState, CloseOnce;
    PrimitivesKeepName(StopTimer(c), CmiMessage, Error);
    PrimitivesKeepName(SetState(StopTimer(c), Error), CmiMessage, Error);
  }

  lemma AccessNameStays(c: Conn, m: Option<Message>)
    requires c.state == AccessMethodsRequest
    ensures OnAccess(c, m).remoteId == c.remoteId || Approved in OnAccess(c, m).path
  {
    hide AsAccess, Send, Fail, Finish;
    FailKeepsName(c);
    match AsAccess(m)
    case Request =>
      PrimitivesKeepName(c, AccessMethodsMessage(Some(c.localId)), Error);
      FailKeepsName(Send(c, AccessMethodsMessage(Some(c.localId))).0);
    case Methods(Some(id)) => FinishApproves(c.(remoteId := id));
    case _ =>
  }

  /** In the access methods state the known SHIP ID only changes together with the approval. */
  lemma NameStays(c: Conn, e: Event)
    requires c.state == AccessMethodsRequest && Enabled(c, e)
    ensures Step(c, e).remoteId == c.remoteId || Approved in Step(c, e).path
  {
    hide OnAccess, SetState, Send, Fail, CloseOnce;
    var d := c.(net := e.net);
    match e.kind
    case Receive(m) =>
      AccessNameStays(d, Some(m));
      PrimitivesKeepName(d, CloseMessage(Confirm), Error);
    case Timeout => FailKeepsName(StopTimer(d));
    case ConnectionError =>
      PrimitivesKeepName(d.(open := false), CmiMessage, Error);
      PrimitivesKeepName(SetState(d.(open := false), Error), CmiMessage, Error);
    case Close(safe) => PrimitivesKeepName(d, CmiMessage, Error);
    case _ =>
  }

  lemma FinishApproves(c: Conn)
    requires c.state != Approved
    ensures Approved in Finish(c).path
  {
    assert SetState(c, Approved).path == c.path + [Approved];
  }

  /** Only access methods whose SHIP ID is the known one, if one is known, lead to approval. */
  lemma ApprovalNames(c: Conn, m: Message, e: Event)
    requires c.state == AccessMethodsRequest && e.kind == Receive(m) && AsAccess(Some(m)).Methods?
    requires Approved in Step(c, e).path && Approved !in c.path
    ensures AsAccess(Some(m)).id.Some? && (c.remoteId == "" || c.remoteId == AsAccess(Some(m)).id.value)
  {
    hide SetState, CloseOnce, Finish;
    var d := c.(net := e.net);
    if Approved in Fail(d).path {
      FailAddsError(d);
      assert false;
    }
    hide Fail;
  }

  // ---------------------------------------------------------------- over whole runs

  /** c was c0 at the start: it has been approved only if c0 knew its peer, and has learned nothing before that. */
  predicate Introduced(c0: Conn, c: Conn, peerId: string) {
    && c.localId == c0.localId
    && (if Approved in c.path then Knows(c0, peerId) else c.remoteId == c0.remoteId)
  }

  predicate Introductions(s0: System, s: System) {
    Linked(s) && Introduced(s0.client, s.client, s0.server.localId) && Introduced(s0.server, s.server, s0.client.localId)
  }

  lemma StepIntroduces(c0: Conn, c: Conn, e: Event, peerId: string)
    requires Introduced(c0, c, peerId) && Sound(c) && Enabled(c, e) && !Glitch(c, e)
    requires e.kind.Receive? && AsAccess(Some(e.kind.m)).Methods? ==>
               W.ArrivingId(peerId).Some? && AsAccess(Some(e.kind.m)).id == W.ArrivingId(peerId)
    ensures Introduced(c0, Step(c, e), peerId)
  {
    var d := Step(c, e);
    StepKeeps(c, e);
    KeptNames(c, d);
    hide Step, Enabled, Glitch, Kept, AsAccess, W.ArrivingId;
    if Approved in d.path && Approved !in c.path {
      ApprovedNeedsMethods(c, e);
      ApprovedFrom(c, d);
      ApprovalNames(c, e.kind.m, e);
    } else if Approved !in d.path && c.state == AccessMethodsRequest {
      NameStays(c, e);
    }
  }

  lemma KeptNames(c: Conn, d: Conn)
    requires Kept(c, d)
    ensures d.localId == c.localId && (d.remoteId == c.remoteId || c.state == AccessMethodsRequest)
    ensures Approved in c.path ==> Approved in d.path
  {
  }

  lemma ApprovedFrom(c: Conn, d: Conn)
    requires Kept(c, d) && Approved in d.path && Approved !in c.path
    ensures c.state == AccessMethodsRequest
  {
  }

  /** What arrives of the peer's access methods is the SHIP ID that arrives for the peer's own one. */
  lemma MethodsNamePeer(peer: Conn, m: Message)
    requires Sound(peer) && m in peer.sent && Incoming(m).Receive? && AsAccess(Some(Incoming(m).m)).Methods?
    ensures W.ArrivingId(peer.localId).Some? && AsAccess(Some(Incoming(m).m)).id == W.ArrivingId(peer.localId)
  {
    hide W.ArrivingId, Walk, Committed;
    assert Declared(peer.path, peer.localId, peer.sent);
    W.ArrivesAlike(m);
  }

  lemma ActIntroduces(s0: System, s: System, a: Action)
    requires Introductions(s0, s) && CanAct(s, a) && !Glitch(End(s, a.end), EventOf(s, a))
    ensures Introductions(s0, Act(s, a))
  {
    var c := End(s, a.end);
    var e := EventOf(s, a);
    var peer := if a.end == Client then s.server else s.client;
    ActLinks(s, a);
    if a.Deliver? {
      var m := Channel(s, a.end)[0];
      assert m in peer.sent;
      if Incoming(m).Receive? && AsAccess(Some(Incoming(m).m)).Methods? { MethodsNamePeer(peer, m); }
    }
    hide Step, Glitch, Enabled, Kept, Knows, AsAccess, Incoming;
    StepIntroduces(if a.end == Client then s0.client else s0.server, c, e, peer.localId);
  }

  /** Introductions hold in every run, unless the server was accepted after an abort. */
  predicate IntroducedOrLost(s0: System, s: System) {
    Introductions(s0, s) || Lost(s)
  }

  lemma ActIntroducesOrLoses(s0: System, s: System, a: Action)
    requires IntroducedOrLost(s0, s) && CanAct(s, a)
    ensures IntroducedOrLost(s0, Act(s, a))
  {
    if Lost(s) {
      if a.end == Client { LostClientActs(s, a); } else { LostServerActs(s, a); }
    } else if Glitch(End(s, a.end), EventOf(s, a)) {
      GlitchLoses(s, a);
    } else {
      ActIntroduces(s0, s, a);
    }
    hide Linked, Lost, Act, CanAct, Introduced;
  }

  lemma {:induction false} RunIntroduces(s0: System, s: System, acts: seq<Action>)
    requires IntroducedOrLost(s0, s) && SystemRun(s, acts)
    ensures IntroducedOrLost(s0, After(s, acts))
    decreases |acts|
  {
    hide IntroducedOrLost, CanAct, Act;
    if acts != [] {
      ActIntroducesOrLoses(s0, s, acts[0]);
      RunIntroduces(s0, Act(s, acts[0]), acts[1..]);
    }
  }

  /**
   Under every interleaving of deliveries, timeouts, user decisions, failing writes and broken connections, also
   when the order of states is broken at an end: an end that completes knew its peer, or knew nobody, and the
   peer's SHIP ID arrives.
   */
  lemma CompletionNeedsNames(s: System, acts: seq<Action>)
    requires Start(s) && SystemRun(s, acts)
    ensures Complete in After(s, acts).client.path ==> Knows(s.client, s.server.localId)
    ensures Complete in After(s, acts).server.path ==> Knows(s.server, s.client.localId)
  {
    hide SystemRun, After, Knows, Sound;
    StartIntroduces(s);
    RunIntroduces(s, s, acts);
    var t := After(s, acts);
    if Lost(t) {
      LostNeverCompletes(t);
    } else {
      CompleteMeansApproved(t.client);
      CompleteMeansApproved(t.server);
    }
  }

  lemma StartIntroduces(s: System)
    requires Start(s)
    ensures Introductions(s, s)
  {
    hide Knows;
  }

  lemma CompleteMeansApproved(c: Conn)
    requires Sound(c)
    ensures Complete in c.path ==> Approved in c.path
  {
    if Complete in c.path {
      var k :| 0 <= k < |c.path| && c.path[k] == Complete;
      assert Edge(c.role, c.path[k - 1], c.path[k]);
    }
  }

  // ---------------------------------------------------------------- permitted runs

  lemma {:induction false} PermittedIsRun(s: System, acts: seq<Action>)
    requires PermittedRun(s, acts)
    ensures SystemRun(s, acts) && After(s, acts) == Reached(s, acts)
    decreases |acts|
  {
    if acts != [] {
      PermittedNoGlitch(s, acts[0]);
      hide Permitted, CanAct, Act;
      PermittedIsRun(Act(s, acts[0]), acts[1..]);
    }
  }

  lemma PermittedNoGlitch(s: System, a: Action)
    requires Permitted(s, a)
    ensures CanAct(s, a) && !Glitch(End(s, a.end), EventOf(s, a))
  {
  }

  lemma {:induction false} OneMore(s: System, acts: seq<Action>, a: Action)
    requires PermittedRun(s, acts) && Permitted(Reached(s, acts), a)
    ensures PermittedRun(s, acts + [a]) && Reached(s, acts + [a]) == Act(Reached(s, acts), a)
    decreases |acts|
  {
    hide Permitted, Act, CanAct, Glitch;
    var more := acts + [a];
    PermittedNoGlitch(s, more[0]);
    if acts == [] {
      assert more == [a] && more[1..] == [];
    } else {
      OneMore(Act(s, acts[0]), acts[1..], a);
      assert more[0] == acts[0] && more[1..] == acts[1..] + [a];
    }
  }

  const TRUSTED := Hub(true, false, true)

  /** Some message is waiting, and its delivery is permitted. */
  lemma NextDelivery(t: System, l: Ledger) returns (a: Action)
    requires Tracks(t, l) && Underway(l) && !Idle(t) && Serene(t)
    ensures a.Deliver? && a.net == [] && Permitted(t, a) && CanAct(t, a) && Welcome(t, l, a.end)
  {
    WaitingCounts(t, l);
    ServerStageOf(t, l);
    if t.toClient != [] {
      a := Deliver(Client, TRUSTED, []);
      ClientHead(t, l);
      MethodsAccepted(t.client, t.server.localId);
    } else {
      a := Deliver(Server, TRUSTED, []);
      ServerHead(t, l);
      MethodsAccepted(t.server, t.client.localId);
    }
    hide Follows, Knows, Incoming;
  }

  lemma ServerStageOf(t: System, l: Ledger)
    requires Follows(t, l) && Underway(l)
    ensures t.client.state != CmiInitStart && t.server.state != CmiInitStart && t.server.state != CmiServerWait
    ensures l.client == 6 ==> t.client.state == AccessMethodsRequest
    ensures l.server == 7 ==> t.server.state == AccessMethodsRequest
  {
    hide ClientWrote, ServerWrote, ClientSent, ServerSent, Healthy, Paid;
  }

  lemma MethodsAccepted(c: Conn, id: string)
    ensures c.state == AccessMethodsRequest && Accepts(c, AccessMethodsMessage(Some(id))) ==> Knows(c, id)
  {
  }

  /** If every permitted run stays serene, one of them completes. */
  lemma {:induction false} SereneFinishes(s: System, acts: seq<Action>, l: Ledger) returns (more: seq<Action>)
    requires PermittedRun(s, acts) && Tracks(Reached(s, acts), l) && Underway(l)
    requires AlwaysSerene(s)
    ensures PermittedRun(s, more) && Finished(Reached(s, more))
    decreases var r := Remaining(l); if r < 0 then 0 else r
  {
    var t := Reached(s, acts);
    NothingRemains(t, l);
    hide Tracks, Underway, Remaining, Serene, Idle, Finished, Permitted, Act, CanAct;
    if Idle(t) {
      more := acts;
    } else {
      var a := NextDelivery(t, l);
      var n := RemainingFalls(t, l, a);
      OneMore(s, acts, a);
      NothingRemains(Act(t, a), n);
      more := SereneFinishes(s, acts + [a], n);
    }
  }

  /** Both ends have started. */
  lemma Started(s: System, hub: Hub) returns (acts: seq<Action>)
    requires Start(s)
    ensures PermittedRun(s, acts) && Follows(Reached(s, acts), Ledger(1, 1, false, 0, 0, 0))
  {
    var l0 := Ledger(0, 0, false, 0, 0, 0);
    assert Follows(s, l0);
    var a, b := Local(Client, Event(Run, hub, [])), Local(Server, Event(Run, hub, []));
    hide Follows, Act, CanAct;
    assert PermittedRun(s, []) && Reached(s, []) == s;
    RunOfClient(s, l0, hub);
    OneMore(s, [], a);
    assert [] + [a] == [a];
    RunOfServer(Act(s, a), l0.(client := 1), hub);
    OneMore(s, [a], b);
    acts := [a] + [b];
  }

  /** Two ends that have started, with a server that trusts its peer. */
  lemma Opening(s: System) returns (acts: seq<Action>, l: Ledger)
    requires Start(s)
    ensures PermittedRun(s, acts) && Tracks(Reached(s, acts), l) && Underway(l)
  {
    var started := Started(s, TRUSTED);
    var t := Reached(s, started);
    var a := Deliver(Server, TRUSTED, []);
    l := Ledger(1, 2, true, 0, 0, 0);
    hide Follows, Act, CanAct;
    FirstMessage(t, Ledger(1, 1, false, 0, 0, 0));
    DeliverToServer(t, Ledger(1, 1, false, 0, 0, 0), TRUSTED);
    OneMore(s, started, a);
    acts := started + [a];
  }

  lemma FirstMessage(s: System, l: Ledger)
    requires Follows(s, l) && l == Ledger(1, 1, false, 0, 0, 0)
    ensures s.toServer != []
  {
  }

  // ---------------------------------------------------------------- the exact condition

  ghost predicate AlwaysSerene(s: System) {
    forall acts | PermittedRun(s, acts) :: Serene(Reached(s, acts))
  }

  /**
   Every permitted run is safe if and only if each end goes on with the SHIP ID that arrives from the other:
   it arrives, and it is the one that is known, if one is known.
   */
  lemma SafetyExact(s: System)
    requires Start(s)
    ensures AlwaysSerene(s) <==> Acquainted(s)
  {
    hide Serene, Acquainted, PermittedRun, Reached;
    if Acquainted(s) {
      forall acts | PermittedRun(s, acts) ensures Serene(Reached(s, acts)) { Safety(s, acts); }
    } else if AlwaysSerene(s) {
      var acts, l := Opening(s);
      var more := SereneFinishes(s, acts, l);
      FinishedKnows(s, more);
    }
  }

  lemma FinishedKnows(s: System, acts: seq<Action>)
    requires Start(s) && PermittedRun(s, acts) && Finished(Reached(s, acts))
    ensures Acquainted(s)
  {
    hide SystemRun, PermittedRun, Reached, After, Knows;
    PermittedIsRun(s, acts);
    CompletionNeedsNames(s, acts);
    PermittedLinked(s, acts);
    StateInPath(Reached(s, acts).client);
    StateInPath(Reached(s, acts).server);
  }

  lemma PermittedLinked(s: System, acts: seq<Action>)
    requires Start(s) && PermittedRun(s, acts)
    ensures Linked(Reached(s, acts))
  {
    StartLinked(s);
    PermittedKeepsLinked(s, acts);
  }

  lemma {:induction false} PermittedKeepsLinked(s: System, acts: seq<Action>)
    requires Linked(s) && PermittedRun(s, acts)
    ensures Linked(Reached(s, acts))
    decreases |acts|
  {
    hide Linked, Act, CanAct, Glitch;
    if acts != [] {
      PermittedNoGlitch(s, acts[0]);
      ActLinks(s, acts[0]);
      PermittedKeepsLinked(Act(s, acts[0]), acts[1..]);
    }
  }

  lemma StateInPath(c: Conn)
    requires Sound(c)
    ensures c.state in c.path
  {
    assert c.path[|c.path| - 1] == c.state;
  }

  /** The two ends can complete if and only if that holds; then, by Progress, every order of deliveries does it. */
  lemma CompletionExact(s: System)
    requires Start(s)
    ensures (exists acts :: PermittedRun(s, acts) && Finished(Reached(s, acts))) <==> Acquainted(s)
  {
    hide Serene, Acquainted, PermittedRun, Reached, Finished;
    if Acquainted(s) {
      SafetyExact(s);
      var acts, l := Opening(s);
      var more := SereneFinishes(s, acts, l);
    } else {
      forall acts | PermittedRun(s, acts) && Finished(Reached(s, acts)) ensures false { FinishedKnows(s, acts); }
    }
  }

  /** None of the four patterns occurs in the SHIP ID, and not the word "datagram" as it is written in JSON. */
  predicate PlainName(id: string) {
    R.Inert(id) && !R.Contains(W.EscapeAll(id), W.DATAGRAM)
  }

  /** For ends that know each other by name, both names must be plain. */
  lemma AcquaintedExact(s: System)
    requires s.client.remoteId == s.server.localId != "" && s.server.remoteId == s.client.localId != ""
    ensures Acquainted(s) <==> PlainName(s.server.localId) && PlainName(s.client.localId)
  {
    hide W.ArrivingId, W.EscapeAll, R.Inert, R.Contains;
    W.ArrivesExact(s.server.localId);
    W.ArrivesExact(s.client.localId);
  }

  /** A server named "dev[]1" whose client knows that name: no permitted run completes, and some run fails. */
  lemma BracketedNameFails(s: System)
    requires Start(s) && s.server.localId == s.client.remoteId == "dev[]1"
    ensures forall acts | PermittedRun(s, acts) :: !Finished(Reached(s, acts))
    ensures !AlwaysSerene(s)
  {
    W.BracketsChange();
    assert !Knows(s.client, s.server.localId);
    SafetyExact(s);
    CompletionExact(s);
  }

  /** A server named "datagram" completes with nobody. */
  lemma WordInNameFails(s: System)
    requires Start(s) && s.server.localId == "datagram"
    ensures forall acts | PermittedRun(s, acts) :: !Finished(Reached(s, acts))
  {
    W.WordIsLost();
    CompletionExact(s);
  }
}
