/**
 Runs that reach what the exact conditions of ShipOrder and ShipSafety single out: the approval that breaks
 the order of states, and the approval that comes too early, with a complete order of the deliveries after it.
 */
module ShipWitness {
  import opened Basics
  import opened ShipModel
  import opened ShipEndpoint
  import opened ShipOrder
  import opened ShipMoves
  import opened ShipSystem
  import opened ShipScript
  import opened ShipSafety
  import opened ShipCompletion

  const WAITING := Hub(false, false, true)
  const APPROVING := Hub(true, false, true)

  // ---------------------------------------------------------------- the order of states can break

  /** A new server is asked, waits for its user, and is approved while its "ready" is refused and its "aborted" is not. */
  lemma GlitchReachable(c: Conn)
    requires Initial(c) && c.role == Server
    ensures var es := [Event(Run, WAITING, []), Event(Receive(CmiMessage), WAITING, [])];
            var e := Event(Approve, APPROVING, [false, true]);
            && SteadyRun(c, es) && Enabled(RunAll(c, es), e) && Glitch(RunAll(c, es), e)
            && !Walk(Server, Step(RunAll(c, es), e).path)
  {
    var r, m := Event(Run, WAITING, []), Event(Receive(CmiMessage), WAITING, []);
    var c1 := Step(c, r);
    ServerStarts(c);
    PendingAfterCmi(c1);
    var c2 := Step(c1, m);
    var e := Event(Approve, APPROVING, [false, true]);
    assert !Glitch(c, r) && !Glitch(c1, m) && Enabled(c1, m) && Enabled(c2, e) && Glitch(c2, e);
    hide Step, Sound, Walk, Enabled, Glitch;
    StepKeeps(c, r);
    StepKeeps(c1, m);
    TwoEvents(c, r, m);
    OrderExact(c2, e);
  }

  lemma TwoEvents(c: Conn, d: Event, e: Event)
    requires Enabled(c, d) && !Glitch(c, d) && Enabled(Step(c, d), e) && !Glitch(Step(c, d), e)
    ensures SteadyRun(c, [d, e]) && RunAll(c, [d, e]) == Step(Step(c, d), e)
  {
    hide Step, Enabled, Glitch;
    var f := Step(c, d);
    assert [d, e][1..] == [e] && [e][1..] == [];
    assert SteadyRun(f, [e]) && RunAll(f, [e]) == Step(f, e);
  }

  lemma ServerStarts(c: Conn)
    requires Initial(c) && c.role == Server
    ensures var d := Step(c, Event(Run, WAITING, [])); d.state == CmiServerWait && d.open && d.role == Server
    ensures Sound(c) && Enabled(c, Event(Run, WAITING, []))
  {
  }

  lemma PendingAfterCmi(c: Conn)
    requires c.state == CmiServerWait && c.open && c.role == Server
    ensures var d := Step(c, Event(Receive(CmiMessage), WAITING, [])); d.state == HelloPendingListen && d.open && d.role == Server
  {
  }

  // ---------------------------------------------------------------- an approval can come too early

  /** The server is asked and waits for its user; the client has not answered yet. */
  lemma UnquietReachable(s: System) returns (acts: seq<Action>)
    requires Start(s)
    ensures PermittedRun(s, acts) && Reached(s, acts).server.state == HelloPendingListen && !Quiet(Reached(s, acts))
    ensures CanAct(Reached(s, acts), Local(Server, Event(Approve, APPROVING, [])))
  {
    var l := Ledger(1, 1, false, 0, 0, 0);
    var started := Started(s, WAITING);
    var t := Reached(s, started);
    FirstMessage(t, l);
    DeliverToServer(t, l, WAITING);
    var a := Deliver(Server, WAITING, []);
    OneMore(s, started, a);
    acts := started + [a];
    hide *;
    StagesPending(Act(t, a), l.(server := 2, waits := 1));
  }

  lemma StagesPending(s: System, l: Ledger)
    requires Follows(s, l) && l.client == 1 && l.server == 2 && !l.ready
    ensures s.server.state == HelloPendingListen && !Quiet(s)
    ensures CanAct(s, Local(Server, Event(Approve, APPROVING, [])))
  {
  }

  // ---------------------------------------------------------------- deliveries come to an end

  lemma Prepend(s: System, a: Action, ds: seq<Action>)
    requires CanAct(s, a) && a.Deliver? && a.net == [] && DeliveryRun(Act(s, a), ds)
    ensures DeliveryRun(s, [a] + ds) && Delivered(s, [a] + ds) == Delivered(Act(s, a), ds)
  {
    hide CanAct, Act;
    assert ([a] + ds)[1..] == ds;
  }

  /** The server has shut down, and the client has started. */
  predicate ServerGone(s: System) {
    && s.server.state == Error && s.server.shutdown && !s.server.open
    && Resting(s.client.state) && s.client.state != CmiInitStart
  }

  /** A server that has shut down takes a message and answers nothing. */
  lemma GoneServerTakes(s: System)
    requires ServerGone(s) && s.toServer != []
    ensures var a := Deliver(Server, WAITING, []);
            CanAct(s, a) && ServerGone(Act(s, a)) && Act(s, a).toClient == s.toClient && |Act(s, a).toServer| < |s.toServer|
  {
  }

  lemma GoneClientTakes(s: System)
    requires ServerGone(s) && s.toClient != []
    ensures var a := Deliver(Client, WAITING, []); CanAct(s, a) && ServerGone(Act(s, a)) && |Act(s, a).toClient| < |s.toClient|
  {
    var e := EventOf(s, Deliver(Client, WAITING, []));
    StepRests(s.client, e);
    hide Step, Incoming;
  }

  lemma {:induction false} GoneDrains(s: System) returns (ds: seq<Action>)
    requires ServerGone(s)
    ensures DeliveryRun(s, ds) && Idle(Delivered(s, ds))
    decreases |s.toClient|, |s.toServer|
  {
    hide ServerGone, CanAct, Act;
    if s.toClient == [] && s.toServer == [] {
      ds := [];
    } else {
      var a := Deliver(if s.toClient != [] then Client else Server, WAITING, []);
      if s.toClient != [] { GoneClientTakes(s); } else { GoneServerTakes(s); }
      var rest := GoneDrains(Act(s, a));
      Prepend(s, a, rest);
      ds := [a] + rest;
    }
  }

  /** A server that was approved too early fails, and the deliveries come to an end. */
  lemma {:induction false} DoomedDrains(s: System, l: Ledger) returns (ds: seq<Action>)
    requires Doomed(s, l) && l.client >= 1 && Linked(s)
    ensures DeliveryRun(s, ds) && Idle(Delivered(s, ds))
    decreases |s.toClient|
  {
    var a := Deliver(if s.toServer != [] then Server else Client, WAITING, []);
    DoomedGoesOn(s, l);
    DoomedCan(s, l, a.end);
    ActLinks(s, a);
    var t := Act(s, a);
    var rest;
    if s.toServer != [] {
      DoomedServerFails(s, l);
      LinkedSound(t);
      rest := GoneDrains(t);
    } else {
      DoomedClientTakes(s, l);
      rest := DoomedDrains(t, AfterClient(l));
    }
    hide *;
    Prepend(s, a, rest);
    ds := [a] + rest;
  }

  lemma DoomedCan(s: System, l: Ledger, end: Role)
    requires Doomed(s, l) && l.client >= 1 && Channel(s, end) != []
    ensures var a := Deliver(end, WAITING, []); CanAct(s, a) && !Glitch(End(s, end), EventOf(s, a))
  {
  }

  lemma LinkedSound(s: System)
    requires Linked(s)
    ensures s.server.shutdown ==> !s.server.open
  {
  }

  lemma DoomedServerFails(s: System, l: Ledger)
    requires Doomed(s, l) && l.client >= 1 && s.toServer != []
    ensures var a := Deliver(Server, WAITING, []);
            CanAct(s, a) && var t := Act(s, a);
            t.server.state == Error && t.server.shutdown && Resting(t.client.state) && t.client.state != CmiInitStart
  {
    ServerHead(s, l);
    LateReadyFails(s.server, WAITING);
  }

  lemma DoomedClientTakes(s: System, l: Ledger)
    requires Doomed(s, l) && l.client >= 1 && s.toServer == [] && s.toClient != []
    ensures var a := Deliver(Client, WAITING, []);
            CanAct(s, a) && Doomed(Act(s, a), AfterClient(l)) && |Act(s, a).toClient| < |s.toClient|
    ensures AfterClient(l).client >= 1
  {
    DeliverToClient(s, l, WAITING);
  }

  lemma ScriptSerene(s: System, l: Ledger)
    requires Tracks(s, l) && Acquainted(s)
    ensures Serene(s)
  {
    HeadsAccepted(s, l);
    hide Accepts, Acquainted, Coherent, ClientWrote, ServerWrote, Healthy;
  }

  lemma {:induction false} ScriptDrains(s: System, l: Ledger) returns (ds: seq<Action>)
    requires OnScript(s, l) && Underway(l)
    ensures DeliveryRun(s, ds) && Idle(Delivered(s, ds))
    decreases var r := Remaining(l); if r < 0 then 0 else r
  {
    NothingRemains(s, l);
    ScriptSerene(s, l);
    hide Tracks, Acquainted, Underway, Remaining, Serene, Idle, Finished, Permitted, Act, CanAct;
    if Idle(s) {
      ds := [];
    } else {
      var a := NextDelivery(s, l);
      var n := RemainingFalls(s, l, a);
      NothingRemains(Act(s, a), n);
      var rest := ScriptDrains(Act(s, a), n);
      Prepend(s, a, rest);
      ds := [a] + rest;
    }
  }

  /** After any approval of a pending server, early or not, there is a complete order of deliveries. */
  lemma ApprovalDrains(s: System, acts: seq<Action>, hub: Hub) returns (ds: seq<Action>)
    requires Start(s) && Acquainted(s) && PermittedRun(s, acts)
    requires Reached(s, acts).server.state == HelloPendingListen && hub.paired && hub.waitAllowed
    ensures var a := Local(Server, Event(Approve, hub, []));
            && CanAct(Reached(s, acts), a) && DeliveryRun(Act(Reached(s, acts), a), ds)
            && Idle(Delivered(Act(Reached(s, acts), a), ds))
  {
    var r := Reached(s, acts);
    var a := Local(Server, Event(Approve, hub, []));
    assert !Glitch(End(r, a.end), EventOf(r, a));
    hide Follows, PermittedRun, Reached, Act, CanAct, Idle, Paid, Delivered, DeliveryRun, Acquainted, Coherent, Glitch, Linked;
    StartFollows(s);
    var l := RunFollows(s, Ledger(0, 0, false, 0, 0, 0), acts);
    PermittedLinked(s, acts);
    ShipSafety.ServerStage(r, l);
    PendingHasClient(l);
    var n := l.(server := 3, ready := true);
    Approves(r, l, hub);
    ActLinks(r, a);
    if Paid(n) { ds := ScriptDrains(Act(r, a), n); } else { ds := DoomedDrains(Act(r, a), n); }
  }

  /** From any start some permitted run and an approval lead to a server that fails on the way. */
  lemma EarlyApprovalFails(s: System) returns (acts: seq<Action>, ds: seq<Action>, k: nat)
    requires Start(s) && Acquainted(s)
    ensures var a := Local(Server, Event(Approve, APPROVING, []));
            && PermittedRun(s, acts) && CanAct(Reached(s, acts), a)
            && k <= |ds| && DeliveryRun(Act(Reached(s, acts), a), ds[..k])
            && Delivered(Act(Reached(s, acts), a), ds[..k]).server.state == Error
  {
    assert APPROVING.paired && APPROVING.waitAllowed;
    hide *;
    acts := UnquietReachable(s);
    ds := ApprovalDrains(s, acts, APPROVING);
    ApprovalExact(s, acts, APPROVING, ds);
    var t := Act(Reached(s, acts), Local(Server, Event(Approve, APPROVING, [])));
    k :| 0 <= k <= |ds| && DeliveryRun(t, ds[..k]) && Delivered(t, ds[..k]).server.state == Error;
  }
}
