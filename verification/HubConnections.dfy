/**
 The objects behind the connection registry and the dials: sockets, dial states and the two maps of the hub
 (hub/hub_connections_registry.go, hub/hub_connections_dialstate.go, hub/hub_connections_client.go).
 */
module HubConnections {
  import opened Basics
  import R = ConnectionRegistry

  // ---------------------------------------------------------------- which end resolves a double connection

  /** The order of Go strings, by character. */
  predicate Less(a: string, b: string) {
    b != "" && (a == "" || a[0] < b[0] || (a[0] == b[0] && Less(a[1..], b[1..])))
  }

  datatype Action = Adopt | Park

  /** resolveDoubleConnection: the end with the bigger SKI keeps its most recent connection. */
  function Resolve(localSki: string, remoteSki: string): Action {
    if Less(remoteSki, localSki) then Adopt else Park
  }

  /** Two texts agree up to a place where a has a smaller character, or ends. */
  predicate SmallerAt(a: string, b: string, k: nat) {
    k <= |a| && k < |b| && a[..k] == b[..k] && (k == |a| || a[k] < b[k])
  }

  /** The end that takes the new connection is the one whose SKI is bigger at the first place where they differ. */
  lemma {:induction false} ResolveExact(local: string, remote: string)
    ensures Resolve(local, remote) == Adopt <==> exists k: nat :: SmallerAt(remote, local, k)
  {
    if remote != "" && local != "" && remote[0] == local[0] {
      var a, b := remote[1..], local[1..];
      ResolveExact(b, a);
      assert remote == [remote[0]] + a && local == [remote[0]] + b;
      if k: nat :| SmallerAt(a, b, k) {
        assert remote[..k + 1] == [remote[0]] + a[..k] == local[..k + 1];
        assert SmallerAt(remote, local, k + 1);
      }
      if k: nat :| SmallerAt(remote, local, k) {
        assert k > 0 && a[..k - 1] == remote[..k][1..] == b[..k - 1];
        assert SmallerAt(a, b, k - 1);
      }
    } else if Less(remote, local) {
      assert SmallerAt(remote, local, 0);
    } else {
      SameStart(remote, local);
    }
  }

  lemma SameStart(a: string, b: string)
    ensures forall k: nat | k > 0 && SmallerAt(a, b, k) :: a != "" && b != "" && a[0] == b[0]
  {
    forall k: nat | k > 0 && SmallerAt(a, b, k) ensures a != "" && b != "" && a[0] == b[0] {
      assert a[..k][0] == a[0] && b[..k][0] == b[0];
    }
  }

  lemma {:induction false} ResolveOpposite(a: string, b: string)
    requires a != b
    ensures Resolve(a, b) == Adopt <==> Resolve(b, a) == Park
    decreases |a|
  {
    if a != "" && b != "" && a[0] == b[0] {
      assert a == [a[0]] + a[1..] && b == [b[0]] + b[1..];
      ResolveOpposite(a[1..], b[1..]);
    }
  }

  /** What an end answers about a new connection to the peer; only a second connection is a double one. */
  function Answer<C>(connections: map<string, C>, localSki: string, remoteSki: string): Action {
    if remoteSki in connections then Resolve(localSki, remoteSki) else Adopt
  }

  /**
   Of two ends with different SKIs that hold a connection to each other exactly one answers that it takes the
   new one; an end that holds none always does. The answer is only logged: see DoubleConnections.
   */
  lemma OneEndAdopts<C, D>(m: map<string, C>, n: map<string, D>, a: string, b: string)
    requires a != b
    ensures b in m && a in n ==> (Answer(m, a, b) == Adopt <==> Answer(n, b, a) == Park)
    ensures Answer(m, a, b) == Park ==> b in m && (a in n ==> Answer(n, b, a) == Adopt)
  {
    ResolveOpposite(a, b);
  }

  // ---------------------------------------------------------------- dials

  class Socket {
    var open: bool

    constructor ()
      ensures open
    {
      open := true;
    }

    method Close()
      modifies this
      ensures !open
    {
      open := false;
    }
  }

  class DialState {
    var conn: Socket?
    var superseded: bool

    constructor ()
      ensures conn == null && !superseded && Retired()
    {
      conn, superseded := null, false;
    }

    /** The current socket of a superseded dial is closed. */
    ghost predicate Retired()
      reads this, conn
    {
      superseded && conn != null ==> !conn.open
    }

    /** A socket of the dial is handed over; it is closed at once if the dial was superseded before. */
    method AdoptSocket(socket: Socket?)
      modifies this, socket
      ensures conn == socket && superseded == old(superseded) && Retired()
      ensures socket != null && !superseded ==> socket.open == old(socket.open)
    {
      conn := socket;
      if superseded && socket != null { socket.Close(); }
    }

    /** An incoming connection took over. */
    method Supersede()
      modifies this, conn
      ensures superseded && conn == old(conn) && Retired() && (conn != null ==> !conn.open)
    {
      superseded := true;
      if conn != null { conn.Close(); }
    }
  }

  // ---------------------------------------------------------------- the hub

  class Connection {
    const remoteSki: string

    constructor (remoteSki: string)
      ensures this.remoteSki == remoteSki
    {
      this.remoteSki := remoteSki;
    }
  }

  class Hub {
    const localSki: string
    var connections: map<string, Connection>
    var connectionsInitiating: map<string, DialState>

    constructor (localSki: string)
      ensures this.localSki == localSki && connections == map[] && connectionsInitiating == map[]
    {
      this.localSki := localSki;
      connections, connectionsInitiating := map[], map[];
    }

    /** The guard at the start of connectFoundService; no result means that nothing is to be done. */
    method BeginDial(ski: string) returns (state: DialState?)
      modifies this
      ensures state == null <==> ski != "" && (ski in old(connections) || ski in old(connectionsInitiating))
      ensures connections == old(connections)
      ensures state != null ==> fresh(state) && !state.superseded && state.conn == null
      ensures connectionsInitiating
              == if state == null || ski == "" then old(connectionsInitiating) else old(connectionsInitiating)[ski := state]
    {
      var dial := new DialState();
      if ski != "" {
        if ski in connections || ski in connectionsInitiating { return null; }
        connectionsInitiating := connectionsInitiating[ski := dial];
      }
      state := dial;
    }

    /** The deferred removal of the mark. */
    method EndDial(ski: string)
      modifies this
      ensures connections == old(connections)
      ensures connectionsInitiating == if ski == "" then old(connectionsInitiating) else old(connectionsInitiating) - {ski}
    {
      if ski != "" { connectionsInitiating := connectionsInitiating - {ski}; }
    }

    /** supersedeForIncoming: registered connections are not touched. */
    method SupersedeForIncoming(remoteSki: string)
      modifies if remoteSki in connectionsInitiating
               then {connectionsInitiating[remoteSki], connectionsInitiating[remoteSki].conn} else {}
      ensures connections == old(connections) && connectionsInitiating == old(connectionsInitiating)
      ensures remoteSki in connectionsInitiating ==>
                var dial := connectionsInitiating[remoteSki];
                dial.superseded && dial.conn == old(dial.conn) && dial.Retired()
    {
      if remoteSki !in connectionsInitiating { return; }
      connectionsInitiating[remoteSki].Supersede();
    }

    method DoubleConnectionAction(remoteSki: string) returns (a: Action)
      ensures a == Answer(connections, localSki, remoteSki)
    {
      if remoteSki !in connections { return Adopt; }
      a := Resolve(localSki, remoteSki);
    }

    /** registerConnection; the displaced connection is the one that is retired. */
    method RegisterConnection(c: Connection) returns (displaced: Option<Connection>)
      modifies this
      ensures (connections, displaced) == R.Register(old(connections), c.remoteSki, c)
      ensures connectionsInitiating == old(connectionsInitiating)
    {
      var ski := c.remoteSki;
      displaced := if ski in connections then Some(connections[ski]) else None;
      if displaced == Some(c) { displaced := None; }
      connections := connections[ski := c];
    }

    method UnregisterConnectionIfMatch(ski: string, c: Connection) returns (was: bool)
      modifies this
      ensures (connections, was) == R.UnregisterIfMatch(old(connections), ski, c)
      ensures connectionsInitiating == old(connectionsInitiating)
    {
      if ski !in connections || connections[ski] != c { return false; }
      connections := connections - {ski};
      was := true;
    }

    /** HandleConnectionClosed up to the report. */
    method HandleConnectionClosed(c: Connection) returns (reported: bool)
      modifies this
      ensures (connections, reported) == R.Closed(old(connections), c.remoteSki, c)
      ensures connectionsInitiating == old(connectionsInitiating)
    {
      var was := UnregisterConnectionIfMatch(c.remoteSki, c);
      if !was && c.remoteSki in connections { return false; }
      reported := true;
    }
  }
}
