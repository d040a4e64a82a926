/**
 Outgoing connection attempts and incoming connections, interleaved in every way
 (hub/hub_connections_client.go, hub/hub_connections_dialstate.go, hub/hub_connections_registry.go).
 */
module DialDiscipline {
  import opened Basics

  datatype Phase = Dialling | Checked | Registered | Ended

  /**
   One run of connectFoundService. observed: it has seen that it was superseded and given up for that
   reason. registered: its connection was registered.
   */
  datatype Dial = Dial(ski: string, phase: Phase, socket: Option<nat>, superseded: bool, observed: bool, registered: bool)

  /**
   Connections and sockets are numbered, a dial is its place in dials. found: dials that an incoming
   handshake has looked up and not retired yet.
   */
  datatype Net = Net(connections: map<string, nat>, initiating: map<string, nat>, dials: seq<Dial>, closed: set<nat>,
                     found: set<nat>)

  datatype Step =
    | Begin(ski: string)
    | Adopt(dial: nat, socket: nat)
    | AttemptFails(dial: nat, last: bool)
    | GiveUp(dial: nat)
    | CheckSuperseded(dial: nat)
    | RegisterDial(dial: nat, ski: string, connection: nat)
    | Finish(dial: nat)
    | LookUp(ski: string)
    | Supersede(dial: nat)
    | Incoming(ski: string, connection: nat)
    | ConnectionGone(ski: string)

  predicate Known(n: Net, d: nat, p: Phase) {
    d < |n.dials| && n.dials[d].phase == p
  }

  predicate Can(n: Net, s: Step) {
    match s
    case Adopt(d, _) => Known(n, d, Dialling)
    case AttemptFails(d, _) => Known(n, d, Dialling)
    case GiveUp(d) => Known(n, d, Dialling)
    case CheckSuperseded(d) => Known(n, d, Dialling)
    case RegisterDial(d, ski, _) => Known(n, d, Checked) && (n.dials[d].ski != "" ==> ski == n.dials[d].ski)
    case Finish(d) => Known(n, d, Registered)
    case Supersede(d) => d in n.found && d < |n.dials|
    case _ => true
  }

  function SetDial(n: Net, d: nat, x: Dial): Net
    requires d < |n.dials|
  {
    n.(dials := n.dials[d := x])
  }

  /** The deferred end of a dial: its mark is removed. */
  function EndDial(n: Net, d: nat, x: Dial): Net
    requires d < |n.dials|
  {
    SetDial(n, d, x.(phase := Ended)).(initiating := if x.ski == "" then n.initiating else n.initiating - {x.ski})
  }

  function CloseSocket(n: Net, socket: Option<nat>): Net {
    if socket.Some? then n.(closed := n.closed + {socket.value}) else n
  }

  function Next(n: Net, s: Step): Net
    requires Can(n, s)
  {
    match s
    case Begin(ski) =>
      if ski != "" && (ski in n.connections || ski in n.initiating) then n
      else
        var d := |n.dials|;
        n.(dials := n.dials + [Dial(ski, Dialling, None, false, false, false)],
           initiating := if ski == "" then n.initiating else n.initiating[ski := d])
    case Adopt(d, socket) =>
      var x := n.dials[d].(socket := Some(socket));
      var m := SetDial(n, d, x);
      if x.superseded then CloseSocket(m, Some(socket)) else m
    case AttemptFails(d, last) =>
      var x := n.dials[d];
      if x.superseded then EndDial(n, d, x.(observed := true))
      else if last then EndDial(n, d, x)
      else n
    case GiveUp(d) => EndDial(n, d, n.dials[d])
    case CheckSuperseded(d) =>
      var x := n.dials[d];
      if x.superseded then CloseSocket(EndDial(n, d, x.(observed := true)), x.socket)
      else SetDial(n, d, x.(phase := Checked))
    case RegisterDial(d, ski, connection) =>
      SetDial(n, d, n.dials[d].(phase := Registered, registered := true)).(connections := n.connections[ski := connection])
    case Finish(d) => EndDial(n, d, n.dials[d])
    case LookUp(ski) => if ski in n.initiating then n.(found := n.found + {n.initiating[ski]}) else n
    case Supersede(d) =>
      var x := n.dials[d].(superseded := true);
      CloseSocket(SetDial(n, d, x), x.socket).(found := n.found - {d})
    case Incoming(ski, connection) => n.(connections := n.connections[ski := connection])
    case ConnectionGone(ski) => n.(connections := n.connections - {ski})
  }

  predicate InFlight(n: Net, d: nat) {
    d < |n.dials| && n.dials[d].phase != Ended
  }

  /** The marks are exactly the dials in flight to a known SKI. */
  predicate MarksExact(n: Net) {
    && (forall ski | ski in n.initiating ::
          ski != "" && InFlight(n, n.initiating[ski]) && n.dials[n.initiating[ski]].ski == ski)
    && (forall d: nat | d < |n.dials| && InFlight(n, d) && n.dials[d].ski != "" ::
          n.dials[d].ski in n.initiating && n.initiating[n.dials[d].ski] == d)
  }

  /** What holds of every dial: sockets of superseded ones are closed, who observed it has given up. */
  predicate DialOk(x: Dial, closed: set<nat>) {
    && (x.superseded && x.socket.Some? ==> x.socket.value in closed)
    && (x.observed ==> x.phase == Ended && !x.registered)
    && (x.registered ==> x.phase == Registered || x.phase == Ended)
  }

  predicate AllOk(n: Net) {
    forall d | 0 <= d < |n.dials| :: DialOk(n.dials[d], n.closed)
  }

  predicate FoundOk(n: Net) {
    forall d | d in n.found :: d < |n.dials|
  }

  predicate Disciplined(n: Net) {
    MarksExact(n) && AllOk(n) && FoundOk(n)
  }

  lemma EndKeepsMarks(n: Net, d: nat, x: Dial)
    requires MarksExact(n) && InFlight(n, d) && x.ski == n.dials[d].ski
    ensures MarksExact(EndDial(n, d, x))
  {
  }

  /** The marks only depend on which dials are in flight to which SKI. */
  lemma MarksDepend(n: Net, m: Net)
    requires MarksExact(n) && m.initiating == n.initiating && |m.dials| == |n.dials|
    requires forall d: nat | d < |n.dials| :: m.dials[d].ski == n.dials[d].ski && (InFlight(m, d) <==> InFlight(n, d))
    ensures MarksExact(m)
  {
  }

  lemma BeginKeepsMarks(n: Net, ski: string)
    requires MarksExact(n)
    ensures MarksExact(Next(n, Begin(ski)))
  {
  }

  lemma NextKeepsMarks(n: Net, s: Step)
    requires MarksExact(n) && Can(n, s)
    ensures MarksExact(Next(n, s))
  {
    hide EndDial, MarksExact;
    match s
    case Begin(ski) => BeginKeepsMarks(n, ski);
    case AttemptFails(d, _) =>
      EndKeepsMarks(n, d, n.dials[d].(observed := true));
      EndKeepsMarks(n, d, n.dials[d]);
    case GiveUp(d) => EndKeepsMarks(n, d, n.dials[d]);
    case CheckSuperseded(d) =>
      EndKeepsMarks(n, d, n.dials[d].(observed := true));
      if n.dials[d].superseded {
        MarksDepend(EndDial(n, d, n.dials[d].(observed := true)), Next(n, s));
      } else {
        MarksDepend(n, Next(n, s));
      }
    case Finish(d) => EndKeepsMarks(n, d, n.dials[d]);
    case _ => MarksDepend(n, Next(n, s));
  }

  /** Changing one dial, and closing its socket or not. */
  lemma SetOk(n: Net, d: nat, x: Dial, socket: Option<nat>)
    requires AllOk(n) && d < |n.dials| && DialOk(x, CloseSocket(n, socket).closed)
    ensures AllOk(CloseSocket(SetDial(n, d, x), socket))
  {
  }

  lemma NextKeepsDials(n: Net, s: Step)
    requires AllOk(n) && Can(n, s)
    ensures AllOk(Next(n, s))
  {
    match s
    case Begin(ski) =>
    case Adopt(d, socket) =>
      var x := n.dials[d].(socket := Some(socket));
      assert DialOk(n.dials[d], n.closed);
      hide AllOk, SetDial;
      SetOk(n, d, x, if x.superseded then Some(socket) else None);
    case AttemptFails(d, last) =>
      EndOk(n, d, n.dials[d]);
      EndOk(n, d, n.dials[d].(observed := true));
    case GiveUp(d) => EndOk(n, d, n.dials[d]);
    case CheckSuperseded(d) =>
      var x := n.dials[d];
      assert DialOk(x, n.closed);
      hide AllOk, SetDial;
      EndOk(n, d, x.(observed := true));
      if x.superseded { MoreClosed(EndDial(n, d, x.(observed := true)), x.socket); } else { SetOk(n, d, x.(phase := Checked), None); }
    case RegisterDial(d, ski, connection) =>
      assert DialOk(n.dials[d], n.closed);
      SetOk(n, d, n.dials[d].(phase := Registered, registered := true), None);
    case Finish(d) => EndOk(n, d, n.dials[d]);
    case Supersede(d) =>
      var x := n.dials[d].(superseded := true);
      assert DialOk(n.dials[d], n.closed);
      SetOk(n, d, x, x.socket);
    case _ =>
  }

  lemma MoreClosed(n: Net, socket: Option<nat>)
    requires AllOk(n)
    ensures AllOk(CloseSocket(n, socket))
  {
  }

  lemma EndOk(n: Net, d: nat, x: Dial)
    requires AllOk(n) && d < |n.dials|
    requires x.ski == n.dials[d].ski && x.socket == n.dials[d].socket && x.superseded == n.dials[d].superseded
    requires x.registered == n.dials[d].registered && (x.observed ==> n.dials[d].observed || n.dials[d].phase == Dialling)
    ensures AllOk(EndDial(n, d, x))
  {
  }

  lemma NextKeepsFound(n: Net, s: Step)
    requires MarksExact(n) && FoundOk(n) && Can(n, s)
    ensures FoundOk(Next(n, s))
  {
  }

  predicate CanAll(n: Net, ss: seq<Step>)
    decreases |ss|
  {
    ss == [] || (Can(n, ss[0]) && CanAll(Next(n, ss[0]), ss[1..]))
  }

  function NextAll(n: Net, ss: seq<Step>): Net
    requires CanAll(n, ss)
    decreases |ss|
  {
    if ss == [] then n else NextAll(Next(n, ss[0]), ss[1..])
  }

  lemma {:induction false} RunDisciplined(n: Net, ss: seq<Step>)
    requires Disciplined(n) && CanAll(n, ss)
    ensures Disciplined(NextAll(n, ss))
    decreases |ss|
  {
    hide Next, MarksExact, AllOk, FoundOk;
    if ss != [] {
      NextKeepsMarks(n, ss[0]);
      NextKeepsDials(n, ss[0]);
      NextKeepsFound(n, ss[0]);
      RunDisciplined(Next(n, ss[0]), ss[1..]);
    }
  }

  const START := Net(map[], map[], [], {}, {})

  /**
   In every reachable state: two dials in flight to one known SKI are the same dial, and it is the one that
   is marked; the current socket of a superseded dial is closed, in whichever order it was adopted and
   superseded; a dial that saw it was superseded has ended without registering.
   */
  lemma DialsDisciplined(ss: seq<Step>)
    requires CanAll(START, ss)
    ensures var n := NextAll(START, ss);
            && (forall d: nat, e: nat | InFlight(n, d) && InFlight(n, e) && n.dials[d].ski == n.dials[e].ski != "" :: d == e)
            && (forall d: nat | d < |n.dials| && InFlight(n, d) && n.dials[d].ski != "" ::
                  n.dials[d].ski in n.initiating && n.initiating[n.dials[d].ski] == d)
            && (forall ski | ski in n.initiating :: InFlight(n, n.initiating[ski]) && n.dials[n.initiating[ski]].ski == ski)
            && (forall d | 0 <= d < |n.dials| && n.dials[d].superseded && n.dials[d].socket.Some? ::
                  n.dials[d].socket.value in n.closed)
            && (forall d | 0 <= d < |n.dials| && n.dials[d].observed :: !n.dials[d].registered && !InFlight(n, d))
  {
    RunDisciplined(START, ss);
    var n := NextAll(START, ss);
    forall d | 0 <= d < |n.dials| ensures DialOk(n.dials[d], n.closed) {}
  }

  /** A dial to a known SKI begins exactly when that SKI is neither registered nor being dialled. */
  lemma BeginExact(ss: seq<Step>, ski: string)
    requires CanAll(START, ss) && ski != ""
    ensures var n := NextAll(START, ss);
            |Next(n, Begin(ski)).dials| > |n.dials|
            <==> ski !in n.connections && forall d: nat | InFlight(n, d) :: n.dials[d].ski != ski
  {
    RunDisciplined(START, ss);
    var n := NextAll(START, ss);
    hide Disciplined, NextAll, CanAll;
    assert MarksExact(n) by { MarksOf(n); }
    if ski in n.initiating { assert InFlight(n, n.initiating[ski]) && n.dials[n.initiating[ski]].ski == ski; }
  }

  lemma MarksOf(n: Net)
    requires Disciplined(n)
    ensures MarksExact(n)
  {
  }

  // ---------------------------------------------------------------- how a dial goes

  lemma OneStep(n: Net, s: Step, ss: seq<Step>)
    requires Can(n, s) && CanAll(Next(n, s), ss)
    ensures CanAll(n, [s] + ss) && NextAll(n, [s] + ss) == NextAll(Next(n, s), ss)
  {
    hide Can, Next;
    assert ([s] + ss)[1..] == ss;
  }

  lemma FiveSteps(n: Net, a: Step, b: Step, c: Step, d: Step, e: Step) returns (r: Net)
    requires Can(n, a) && Can(Next(n, a), b) && Can(Next(Next(n, a), b), c) && Can(Next(Next(Next(n, a), b), c), d)
    requires Can(Next(Next(Next(Next(n, a), b), c), d), e)
    ensures CanAll(n, [a, b, c, d, e]) && r == NextAll(n, [a, b, c, d, e])
    ensures r == Next(Next(Next(Next(Next(n, a), b), c), d), e)
  {
    hide Can, Next;
    var n1 := Next(n, a);
    var n2 := Next(n1, b);
    var n3 := Next(n2, c);
    var n4 := Next(n3, d);
    r := Next(n4, e);
    assert CanAll(r, []) && NextAll(r, []) == r;
    OneStep(n4, e, []);
    OneStep(n3, d, [e] + []);
    OneStep(n2, c, [d] + ([e] + []));
    OneStep(n1, b, [c] + ([d] + ([e] + [])));
    OneStep(n, a, [b] + ([c] + ([d] + ([e] + []))));
    assert [a, b, c, d, e] == [a] + ([b] + ([c] + ([d] + ([e] + []))));
  }

  /** A dial that nobody interferes with goes on after a failed attempt, registers, and takes its mark away. */
  lemma DialSucceeds(n: Net, ski: string, socket: nat, connection: nat)
    requires ski != "" && ski !in n.connections && ski !in n.initiating
    ensures var d := |n.dials|;
            var ss := [Begin(ski), AttemptFails(d, false), Adopt(d, socket), CheckSuperseded(d), RegisterDial(d, ski, connection)];
            && CanAll(n, ss) && Can(NextAll(n, ss), Finish(d))
            && NextAll(n, ss).connections == n.connections[ski := connection] && NextAll(n, ss).initiating == n.initiating[ski := d]
            && d < |NextAll(n, ss).dials| && NextAll(n, ss).dials[d].registered && NextAll(n, ss).closed == n.closed
            && Next(NextAll(n, ss), Finish(d)).initiating == n.initiating && !InFlight(Next(NextAll(n, ss), Finish(d)), d)
  {
    var d := |n.dials|;
    var r := FiveSteps(n, Begin(ski), AttemptFails(d, false), Adopt(d, socket), CheckSuperseded(d), RegisterDial(d, ski, connection));
    hide NextAll, CanAll;
    assert n.initiating[ski := d] - {ski} == n.initiating;
  }

  /** A dial that an incoming handshake finds and retires ends without registering, and its socket is closed. */
  lemma DialRetired(n: Net, ski: string, socket: nat)
    requires ski != "" && ski !in n.connections && ski !in n.initiating
    ensures var d := |n.dials|;
            var ss := [Begin(ski), LookUp(ski), Adopt(d, socket), Supersede(d), CheckSuperseded(d)];
            && CanAll(n, ss) && NextAll(n, ss).connections == n.connections && NextAll(n, ss).initiating == n.initiating
            && d < |NextAll(n, ss).dials|
            && socket in NextAll(n, ss).closed && NextAll(n, ss).dials[d].observed && !NextAll(n, ss).dials[d].registered
            && NextAll(n, ss).found == n.found - {d}
  {
    var d := |n.dials|;
    var r := FiveSteps(n, Begin(ski), LookUp(ski), Adopt(d, socket), Supersede(d), CheckSuperseded(d));
    hide NextAll, CanAll;
    assert n.initiating[ski := d] - {ski} == n.initiating;
    assert n.found + {d} - {d} == n.found - {d};
  }

  /** The last failed attempt, or a failed one of a superseded dial, ends it; so does giving up. */
  lemma FailureExact(n: Net, d: nat, last: bool)
    requires Can(n, AttemptFails(d, last))
    ensures var m := Next(n, AttemptFails(d, last));
            && (m.dials[d].phase == Ended <==> last || n.dials[d].superseded) && (m != n ==> m.dials[d].phase == Ended)
            && m.connections == n.connections && Next(n, GiveUp(d)).dials[d].phase == Ended
            && Next(n, GiveUp(d)).connections == n.connections
  {
  }

  /** Incoming connections are registered as they come, and removed when they are gone. */
  lemma IncomingExact(n: Net, ski: string, connection: nat)
    ensures Next(n, Incoming(ski, connection)) == n.(connections := n.connections[ski := connection])
    ensures Next(n, ConnectionGone(ski)).connections == n.connections - {ski}
  {
  }
}
