/**
 Safety, termination and the exact condition on approvals for a client and a server whose writes succeed.
 */
module ShipSafety {
  import opened Basics
  import opened ShipModel
  import opened ShipEndpoint
  import opened ShipOrder
  import opened ShipMoves
  import opened ShipSystem
  import opened ShipScript

  /** No hello message is on its way that would still make the client send a "ready", nor such a "ready". */
  predicate Quiet(s: System) {
    s.client.state == HelloReadyListen && READY !in s.toServer && PROLONG !in s.toClient
  }

  /**
   What may happen: both ends are started, messages are delivered, the pending server's timer may fire any
   number of times while waiting is allowed, and the user may approve, but only when it is quiet.
   */
  predicate Permitted(s: System, a: Action) {
    CanAct(s, a) &&
    match a
    case Deliver(end, hub, net) =>
      net == [] && (end == Server && s.server.state == CmiServerWait ==> hub.paired || hub.autoAccept || hub.waitAllowed)
    case Local(end, e) =>
      e.net == [] &&
      match e.kind
      case Run => true
      case Timeout => end == Server && s.server.state == HelloPendingListen && e.hub.waitAllowed
      case Approve =>
        end == Server && (s.server.state == HelloPendingListen ==> e.hub.paired && e.hub.waitAllowed && Quiet(s))
      case _ => false
  }

  predicate PermittedRun(s: System, acts: seq<Action>)
    decreases |acts|
  {
    acts == [] || (Permitted(s, acts[0]) && PermittedRun(Act(s, acts[0]), acts[1..]))
  }

  function Reached(s: System, acts: seq<Action>): System
    requires PermittedRun(s, acts)
    decreases |acts|
  {
    if acts == [] then s else Reached(Act(s, acts[0]), acts[1..])
  }

  /** The script as far as it is permitted, whatever SHIP IDs the ends have. */
  predicate Tracks(s: System, l: Ledger) {
    Follows(s, l) && (l.server >= 3 ==> Paid(l))
  }

  predicate OnScript(s: System, l: Ledger) {
    Tracks(s, l) && Acquainted(s)
  }

  // ---------------------------------------------------------------- what quiet means

  lemma OwedIsNotQuiet(s: System, l: Ledger)
    requires Follows(s, l) && l.server == 2 && !l.ready && l.client == 2 && !Paid(l)
    ensures READY in s.toServer || PROLONG in s.toClient
  {
    CoherentCounts(s, l);
    if ServerGot(l) < ClientSent(l) {
      ServerHead(s, l);
    } else {
      assert Answers(l.seen) < Answers(l.waits);
      var k := if l.seen == 0 then 1 else 0;
      assert s.toClient[k] == s.server.sent[ClientGot(l) + k] == ServerLine(l, s.server.localId, ClientGot(l) + k);
    }
  }

  lemma QuietMeansPaid(s: System, l: Ledger)
    requires Follows(s, l) && l.server == 2 && !l.ready
    ensures Quiet(s) ==> Paid(l)
  {
    if s.client.state == HelloReadyListen && !Paid(l) {
      assert l.client == 2;
      OwedIsNotQuiet(s, l);
    }
  }

  /** When every owed "ready" has been received, only the very first "pending" may still be on its way. */
  lemma PaidCounts(l: Ledger)
    requires Coherent(l) && l.server == 2 && !l.ready && l.readies == 1 + Answers(l.waits)
    ensures l.client == 2 && ServerGot(l) == ClientSent(l)
    ensures l.seen == l.waits || (l.seen == 0 && l.waits == 1)
  {
  }

  lemma OnItsWay(s: System, l: Ledger, k: nat)
    requires Follows(s, l) && k < |s.toClient|
    ensures ClientGot(l) + k < ServerSent(l) && s.toClient[k] == ServerLine(l, s.server.localId, ClientGot(l) + k)
  {
    CoherentCounts(s, l);
    hide ServerSent, ClientGot, ClientSent, ServerGot, Coherent, ServerLine, Healthy, ClientState, ServerState;
    assert s.server.sent[ClientGot(l) + k] == s.toClient[k];
  }

  lemma AllRead(s: System, l: Ledger)
    requires Follows(s, l) && ServerGot(l) == ClientSent(l)
    ensures s.toServer == []
  {
    hide Coherent, ServerLine, ClientLine, ServerSent, ClientGot, ServerGot, ClientSent, Healthy;
  }

  lemma NoProlongation(s: System, l: Ledger, k: nat)
    requires Follows(s, l) && l.client == 2 && l.server == 2 && !l.ready && k < |s.toClient|
    requires l.seen == l.waits || (l.seen == 0 && l.waits == 1)
    ensures s.toClient[k] == PENDING
  {
    OnItsWay(s, l, k);
    hide Follows;
  }

  lemma PaidShape(s: System, l: Ledger)
    requires Follows(s, l) && ServerState(l) == HelloPendingListen && Paid(l)
    ensures s.client.state == HelloReadyListen && s.toServer == []
    ensures l.client == 2 && (l.seen == l.waits || (l.seen == 0 && l.waits == 1))
  {
    hide ClientWrote, ServerWrote, Healthy;
    PaidCounts(l);
    AllRead(s, l);
  }

  lemma PaidMeansQuiet(s: System, l: Ledger)
    requires Follows(s, l) && ServerState(l) == HelloPendingListen
    ensures Paid(l) ==> Quiet(s)
  {
    hide Follows, Paid;
    if Paid(l) {
      PaidShape(s, l);
      forall k | 0 <= k < |s.toClient| ensures s.toClient[k] == PENDING {
        NoProlongation(s, l, k);
      }
    }
  }

  // ---------------------------------------------------------------- safety

  lemma StartFollows(s: System)
    requires Start(s) && Acquainted(s)
    ensures OnScript(s, Ledger(0, 0, false, 0, 0, 0))
  {
  }

  lemma PermittedDelivery(s: System, l: Ledger, a: Action) returns (n: Ledger)
    requires OnScript(s, l) && CanAct(s, a) && Permitted(s, a) && a.Deliver?
    ensures OnScript(Act(s, a), n)
  {
    ServerStage(s, l);
    assert a == Deliver(a.end, a.hub, []);
    assert if a.end == Client then s.toClient != [] else s.toServer != [] && l.server >= 1;
    hide Follows, Act, CanAct, Coherent, Paid, Quiet, AfterServer, AfterClient, ClientState, ServerState;
    if a.end == Client {
      n := AfterClient(l);
      AfterClientPaid(l);
      DeliverToClient(s, l, a.hub);
    } else {
      var ready := a.hub.paired || a.hub.autoAccept;
      n := AfterServer(l, ready);
      AfterServerPaid(s, l, ready);
      DeliverToServer(s, l, a.hub);
    }
  }

  lemma AfterClientPaid(l: Ledger)
    ensures AfterClient(l).server == l.server && (Paid(AfterClient(l)) <==> Paid(l))
  {
  }

  /** The stage of either end, read off its state. */
  lemma ServerStage(s: System, l: Ledger)
    requires Follows(s, l)
    ensures s.client.state == CmiInitStart <==> l.client == 0
    ensures s.server.state == CmiInitStart <==> l.server == 0
    ensures s.server.state == CmiServerWait <==> l.server == 1
    ensures s.server.state == HelloPendingListen <==> l.server == 2 && !l.ready
    ensures Coherent(l)
  {
  }

  lemma PermittedRunning(s: System, l: Ledger, a: Action) returns (n: Ledger)
    requires OnScript(s, l) && CanAct(s, a) && Permitted(s, a) && a.Local? && a.event.kind.Run?
    ensures OnScript(Act(s, a), n)
  {
    ServerStage(s, l);
    hide Follows, Act, Coherent, Paid, Quiet;
    if a.end == Client {
      n := l.(client := 1);
      RunOfClient(s, l, a.event.hub);
      PaidDepends(l, n);
    } else {
      n := l.(server := 1);
      RunOfServer(s, l, a.event.hub);
    }
  }

  lemma PermittedDecision(s: System, l: Ledger, a: Action) returns (n: Ledger)
    requires OnScript(s, l) && CanAct(s, a) && Permitted(s, a) && a.Local? && !a.event.kind.Run?
    ensures OnScript(Act(s, a), n)
  {
    hide Follows, Act, Coherent, Paid, Quiet;
    ServerStage(s, l);
    var hub := a.event.hub;
    if a.event.kind.Timeout? {
      n := l.(waits := l.waits + 1);
      Prolongs(s, l, hub);
    } else if s.server.state == HelloPendingListen {
      n := l.(server := 3, ready := true);
      QuietMeansPaid(s, l);
      PaidDepends(l, n);
      Approves(s, l, hub);
    } else {
      n := l;
      IdleApproval(s, l, hub);
    }
  }

  lemma PaidDepends(l: Ledger, n: Ledger)
    requires n.readies == l.readies && n.waits == l.waits
    ensures Paid(n) <==> Paid(l)
  {
  }

  lemma PermittedStep(s: System, l: Ledger, a: Action) returns (n: Ledger)
    requires OnScript(s, l) && CanAct(s, a) && Permitted(s, a)
    ensures OnScript(Act(s, a), n)
  {
    hide OnScript, Act;
    if a.Deliver? {
      n := PermittedDelivery(s, l, a);
    } else if a.event.kind.Run? {
      n := PermittedRunning(s, l, a);
    } else {
      n := PermittedDecision(s, l, a);
    }
  }

  lemma AfterServerPaid(s: System, l: Ledger, ready: bool)
    requires Coherent(l) && (l.server >= 3 ==> Paid(l))
    ensures AfterServer(l, ready).server >= 3 ==> Paid(AfterServer(l, ready))
  {
  }

  lemma IdleApproval(s: System, l: Ledger, hub: Hub)
    requires Follows(s, l) && s.server.state != HelloPendingListen
    requires CanAct(s, Local(Server, Event(Approve, hub, [])))
    ensures Follows(Act(s, Local(Server, Event(Approve, hub, []))), l)
    ensures Acquainted(s) ==> Acquainted(Act(s, Local(Server, Event(Approve, hub, []))))
  {
    assert Step(s.server, Event(Approve, hub, [])) == s.server.(net := []);
  }

  lemma {:induction false} RunFollows(s: System, l: Ledger, acts: seq<Action>) returns (n: Ledger)
    requires OnScript(s, l) && PermittedRun(s, acts)
    ensures OnScript(Reached(s, acts), n)
    decreases |acts|
  {
    hide OnScript, Act, CanAct;
    if acts == [] {
      n := l;
    } else {
      var m := PermittedStep(s, l, acts[0]);
      n := RunFollows(Act(s, acts[0]), m, acts[1..]);
    }
  }

  /** No end has failed, and both accept the message that comes next. */
  predicate Serene(s: System) {
    && Healthy(s.client.path) && Healthy(s.server.path)
    && (s.toClient != [] ==> Accepts(s.client, s.toClient[0]))
    && (s.toServer != [] && s.server.state != CmiInitStart ==> Accepts(s.server, s.toServer[0]))
  }

  /**
   Whatever the order of deliveries, with any number of prolongation rounds: both ends always accept the
   message that comes next, and neither has ever entered a failed, aborted or rejected state.
   */
  lemma Safety(s: System, acts: seq<Action>)
    requires Start(s) && Acquainted(s)
    requires PermittedRun(s, acts)
    ensures Serene(Reached(s, acts))
  {
    StartFollows(s);
    var l := RunFollows(s, Ledger(0, 0, false, 0, 0, 0), acts);
    HeadsAccepted(Reached(s, acts), l);
  }

  // ---------------------------------------------------------------- termination

  /** Messages that are still to be received when the script has ended. */
  function Remaining(l: Ledger): int {
    7 + Answers(l.waits) - ServerGot(l) + l.waits + 6 - ClientGot(l)
  }

  predicate Idle(s: System) {
    s.toServer == [] && s.toClient == []
  }

  predicate Finished(s: System) {
    s.client.state == Complete && s.server.state == Complete && Idle(s)
  }

  /** Both ends run, and the server has said that it is ready. */
  predicate Underway(l: Ledger) {
    l.client >= 1 && l.ready
  }

  predicate DeliveryRun(s: System, ds: seq<Action>)
    decreases |ds|
  {
    ds == [] || (CanAct(s, ds[0]) && ds[0].Deliver? && ds[0].net == [] && DeliveryRun(Act(s, ds[0]), ds[1..]))
  }

  function Delivered(s: System, ds: seq<Action>): System
    requires DeliveryRun(s, ds)
    decreases |ds|
  {
    if ds == [] then s else Delivered(Act(s, ds[0]), ds[1..])
  }

  lemma ClientCountsDown(l: Ledger)
    requires Coherent(l) && ClientGot(l) < ServerSent(l) && Underway(l)
    ensures Underway(AfterClient(l)) && Remaining(AfterClient(l)) == Remaining(l) - 1
  {
  }

  lemma ServerCountsDown(l: Ledger, ready: bool)
    requires Coherent(l) && ServerGot(l) < ClientSent(l) && Underway(l) && (l.server >= 3 ==> Paid(l))
    ensures Underway(AfterServer(l, ready)) && Remaining(AfterServer(l, ready)) == Remaining(l) - 1
  {
  }

  /** A delivery of the access methods finds a receiver that goes on with their SHIP ID. */
  predicate Welcome(s: System, l: Ledger, end: Role) {
    && (end == Client && l.client == 6 ==> Knows(s.client, s.server.localId))
    && (end == Server && l.server == 7 ==> Knows(s.server, s.client.localId))
  }

  lemma RemainingFalls(s: System, l: Ledger, a: Action) returns (n: Ledger)
    requires Tracks(s, l) && Underway(l) && CanAct(s, a) && a.Deliver? && a.net == [] && Welcome(s, l, a.end)
    ensures Tracks(Act(s, a), n) && Underway(n) && Remaining(n) == Remaining(l) - 1
    ensures Acquainted(s) ==> Acquainted(Act(s, a))
  {
    WaitingCounts(s, l);
    hide Follows, Act, Coherent, Paid, Acquainted, Knows, AfterServer, AfterClient, Remaining, ServerGot, ClientGot, ServerSent, ClientSent;
    var ready := a.hub.paired || a.hub.autoAccept;
    if a.end == Client {
      n := AfterClient(l);
      AfterClientPaid(l);
      DeliverToClient(s, l, a.hub);
      ClientCountsDown(l);
    } else {
      n := AfterServer(l, ready);
      AfterServerPaid(s, l, ready);
      DeliverToServer(s, l, a.hub);
      ServerCountsDown(l, ready);
    }
  }

  lemma WaitingCounts(s: System, l: Ledger)
    requires Follows(s, l)
    ensures s.toServer != [] ==> ServerGot(l) < ClientSent(l)
    ensures s.toClient != [] ==> ClientGot(l) < ServerSent(l)
    ensures Coherent(l) && (l.ready ==> l.server >= 2)
  {
  }

  lemma NothingRemains(s: System, l: Ledger)
    requires Tracks(s, l) && Underway(l)
    ensures Remaining(l) >= 0
    ensures Remaining(l) == 0 <==> Idle(s)
    ensures Idle(s) ==> Finished(s)
  {
  }

  lemma {:induction false} DeliveriesFinish(s: System, l: Ledger, ds: seq<Action>)
    requires OnScript(s, l) && Underway(l) && DeliveryRun(s, ds)
    ensures |ds| <= Remaining(l)
    ensures |ds| == Remaining(l) <==> Idle(Delivered(s, ds))
    ensures Idle(Delivered(s, ds)) ==> Finished(Delivered(s, ds))
    decreases |ds|
  {
    hide Tracks, Knows, Underway, Remaining, Finished, Act, CanAct, Idle;
    if ds == [] {
      NothingRemains(s, l);
    } else {
      var n := RemainingFalls(s, l, ds[0]);
      DeliveriesFinish(Act(s, ds[0]), n, ds[1..]);
    }
  }

  /** The server is past its own decision. */
  predicate Decided(s: System) {
    s.server.state != CmiInitStart && s.server.state != CmiServerWait && s.server.state != HelloPendingListen
  }

  /**
   Once both ends run and the server is ready, exactly n more deliveries take place, in whatever order; then
   both ends are complete and nothing is left in the channels, and before that some message is waiting.
   */
  lemma Progress(s: System, acts: seq<Action>) returns (n: nat)
    requires Start(s) && Acquainted(s)
    requires PermittedRun(s, acts) && Reached(s, acts).client.state != CmiInitStart && Decided(Reached(s, acts))
    ensures forall ds | DeliveryRun(Reached(s, acts), ds) ::
              && |ds| <= n
              && (|ds| < n ==> !Idle(Delivered(Reached(s, acts), ds)))
              && (|ds| == n ==> Finished(Delivered(Reached(s, acts), ds)))
  {
    StartFollows(s);
    var l := RunFollows(s, Ledger(0, 0, false, 0, 0, 0), acts);
    var t := Reached(s, acts);
    assert Underway(l);
    NothingRemains(t, l);
    n := Remaining(l);
    forall ds | DeliveryRun(t, ds)
      ensures |ds| <= n
      ensures |ds| < n ==> !Idle(Delivered(t, ds))
      ensures |ds| == n ==> Finished(Delivered(t, ds))
    {
      DeliveriesFinish(t, l, ds);
    }
  }

  // ---------------------------------------------------------------- approving too early

  /** The server has approved while the client still owed a "ready". */
  predicate Doomed(s: System, l: Ledger) {
    Follows(s, l) && l.server == 3 && !Paid(l)
  }

  lemma DoomedGoesOn(s: System, l: Ledger)
    requires Doomed(s, l) && l.client >= 1
    ensures !Idle(s)
  {
  }

  lemma DoomedStep(s: System, l: Ledger, a: Action) returns (n: Ledger)
    requires Doomed(s, l) && l.client >= 1 && CanAct(s, a) && a.Deliver? && a.net == []
    ensures Act(s, a).server.state == Error || (Doomed(Act(s, a), n) && n.client >= 1)
  {
    if a.end == Client {
      n := AfterClient(l);
      DeliverToClient(s, l, a.hub);
    } else {
      n := l;
      ServerHead(s, l);
      LateReadyFails(s.server, a.hub);
    }
  }

  lemma {:induction false} DoomedFails(s: System, l: Ledger, ds: seq<Action>) returns (k: nat)
    requires Doomed(s, l) && l.client >= 1 && DeliveryRun(s, ds) && Idle(Delivered(s, ds))
    ensures k <= |ds| && DeliveryRun(s, ds[..k]) && Delivered(s, ds[..k]).server.state == Error
    decreases |ds|
  {
    hide Doomed, Act, CanAct, Idle;
    if ds == [] {
      DoomedGoesOn(s, l);
      assert false;
    } else {
      var n := DoomedStep(s, l, ds[0]);
      var t := Act(s, ds[0]);
      if t.server.state == Error {
        k := 1;
        assert ds[..1][1..] == [];
      } else {
        var j := DoomedFails(t, n, ds[1..]);
        k := j + 1;
        assert ds[..k][1..] == ds[1..][..j];
      }
    }
  }

  lemma {:induction false} ScriptNeverFails(s: System, l: Ledger, ds: seq<Action>)
    requires OnScript(s, l) && Underway(l) && DeliveryRun(s, ds)
    ensures Delivered(s, ds).server.state != Error
    decreases |ds|
  {
    hide Underway, Act, CanAct, Follows;
    if ds == [] {
      assert s.server.state == ServerState(l) by { StateOfScript(s, l); }
    } else {
      var n := RemainingFalls(s, l, ds[0]);
      ScriptNeverFails(Act(s, ds[0]), n, ds[1..]);
    }
  }

  lemma StateOfScript(s: System, l: Ledger)
    requires Follows(s, l)
    ensures s.server.state == ServerState(l)
  {
  }

  lemma ApprovedExact(t: System, n: Ledger, ds: seq<Action>)
    requires Follows(t, n) && n.server == 3 && n.ready && n.client >= 1 && Acquainted(t)
    requires DeliveryRun(t, ds) && Idle(Delivered(t, ds))
    ensures (exists k | 0 <= k <= |ds| :: DeliveryRun(t, ds[..k]) && Delivered(t, ds[..k]).server.state == Error) <==> !Paid(n)
    ensures Paid(n) ==> Finished(Delivered(t, ds))
  {
    hide Follows, Act, CanAct, Idle, Finished, Paid, Delivered, DeliveryRun, Acquainted;
    if Paid(n) {
      DeliveriesFinish(t, n, ds);
      forall k | 0 <= k <= |ds| && DeliveryRun(t, ds[..k]) ensures Delivered(t, ds[..k]).server.state != Error {
        ScriptNeverFails(t, n, ds[..k]);
      }
    } else {
      var k := DoomedFails(t, n, ds);
    }
  }

  /**
   An approval of a pending server leads into an error if and only if it is not quiet: for every complete
   order of the deliveries that follow, the server fails on the way exactly then.
   */
  lemma ApprovalExact(s: System, acts: seq<Action>, hub: Hub, ds: seq<Action>)
    requires Start(s) && Acquainted(s)
    requires PermittedRun(s, acts) && Reached(s, acts).server.state == HelloPendingListen && hub.paired && hub.waitAllowed
    requires var a := Local(Server, Event(Approve, hub, []));
             CanAct(Reached(s, acts), a)
             && DeliveryRun(Act(Reached(s, acts), a), ds) && Idle(Delivered(Act(Reached(s, acts), a), ds))
    ensures var t := Act(Reached(s, acts), Local(Server, Event(Approve, hub, [])));
            (exists k | 0 <= k <= |ds| :: DeliveryRun(t, ds[..k]) && Delivered(t, ds[..k]).server.state == Error)
            <==> !Quiet(Reached(s, acts))
    ensures Quiet(Reached(s, acts)) ==> Finished(Delivered(Act(Reached(s, acts), Local(Server, Event(Approve, hub, []))), ds))
  {
    hide Follows, PermittedRun, Reached, Act, CanAct, Quiet, Idle, Finished, Paid, Delivered, DeliveryRun, Acquainted, Start, Coherent;
    StartFollows(s);
    var r := Reached(s, acts);
    var l := RunFollows(s, Ledger(0, 0, false, 0, 0, 0), acts);
    var n := l.(server := 3, ready := true);
    ServerStage(r, l);
    PendingHasClient(l);
    Approves(r, l, hub);
    QuietMeansPaid(r, l);
    PaidMeansQuiet(r, l);
    PaidDepends(l, n);
    ApprovedExact(Act(r, Local(Server, Event(Approve, hub, []))), n, ds);
  }

  lemma PendingHasClient(l: Ledger)
    requires Coherent(l) && l.server == 2
    ensures l.client >= 1
  {
  }
}
