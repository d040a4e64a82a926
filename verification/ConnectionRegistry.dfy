/**
 The connection registry of the hub (hub/hub_connections_registry.go, hub/hub_shipconnection.go): for every
 SKI the most recently registered connection, whatever else is opened and closed.
 */
module ConnectionRegistry {
  import opened Basics

  // ---------------------------------------------------------------- one registration or close

  /** registerConnection: the new registry and the connection it displaced. */
  function Register<C(==)>(m: map<string, C>, ski: string, c: C): (map<string, C>, Option<C>) {
    (m[ski := c], if ski in m && m[ski] != c then Some(m[ski]) else None)
  }

  /** UnregisterConnectionIfMatch: the new registry and whether the connection was the registered one. */
  function UnregisterIfMatch<C(==)>(m: map<string, C>, ski: string, c: C): (map<string, C>, bool) {
    if ski in m && m[ski] == c then (m - {ski}, true) else (m, false)
  }

  /** HandleConnectionClosed: the new registry and whether a disconnect is reported. */
  function Closed<C(==)>(m: map<string, C>, ski: string, c: C): (map<string, C>, bool) {
    var (r, was) := UnregisterIfMatch(m, ski, c);
    (r, was || ski !in r)
  }

  // ---------------------------------------------------------------- any sequence of them

  /** Connections are numbered; Event.ski is the SKI of the peer of that connection. */
  datatype Event = Registers(ski: string, id: nat) | Closes(ski: string, id: nat)

  function After(m: map<string, nat>, e: Event): map<string, nat> {
    match e
    case Registers(ski, id) => Register(m, ski, id).0
    case Closes(ski, id) => Closed(m, ski, id).0
  }

  function AfterAll(es: seq<Event>): map<string, nat> {
    if es == [] then map[] else After(AfterAll(es[..|es| - 1]), es[|es| - 1])
  }

  /** The registration at k is the latest for its SKI, and its connection has not closed since. */
  predicate Current(es: seq<Event>, k: nat) {
    && k < |es| && es[k].Registers?
    && forall j | k < j < |es| && es[j].ski == es[k].ski :: es[j].Closes? && es[j].id != es[k].id
  }

  /**
   Most recent wins: a connection is registered for a SKI exactly when it is the latest that registered
   there and it has not closed since.
   */
  lemma {:induction false} MostRecentWins(es: seq<Event>, ski: string, id: nat)
    ensures ski in AfterAll(es) && AfterAll(es)[ski] == id
            <==> exists k | 0 <= k < |es| :: Current(es, k) && es[k].ski == ski && es[k].id == id
  {
    if es != [] {
      var n := |es| - 1;
      var rest := es[..n];
      MostRecentWins(rest, ski, id);
      CurrentGrows(es, ski, id);
    }
  }

  lemma CurrentGrows(es: seq<Event>, ski: string, id: nat)
    requires es != []
    ensures var n := |es| - 1;
            var rest := es[..n];
            (exists k | 0 <= k < |es| :: Current(es, k) && es[k].ski == ski && es[k].id == id)
            <==> if es[n].ski != ski then exists k | 0 <= k < n :: Current(rest, k) && rest[k].ski == ski && rest[k].id == id
                 else if es[n].Registers? then es[n].id == id
                 else es[n].id != id && exists k | 0 <= k < n :: Current(rest, k) && rest[k].ski == ski && rest[k].id == id
  {
    var n := |es| - 1;
    var rest := es[..n];
    assert forall k | 0 <= k < n && es[k].ski == ski && es[k].id == id ::
        Current(es, k) <==> Current(rest, k) && (es[n].ski == ski ==> es[n].Closes? && es[n].id != id);
    if es[n].ski == ski && es[n].Registers? && es[n].id == id { assert Current(es, n); }
  }

  /** No connection is registered for a SKI exactly when none is current. */
  lemma AbsentExact(es: seq<Event>, ski: string)
    ensures ski !in AfterAll(es) <==> forall k | 0 <= k < |es| && es[k].ski == ski :: !Current(es, k)
  {
    if ski in AfterAll(es) { MostRecentWins(es, ski, AfterAll(es)[ski]); }
    forall k | 0 <= k < |es| && es[k].ski == ski && Current(es, k) ensures ski in AfterAll(es) {
      MostRecentWins(es, ski, es[k].id);
    }
  }

  /** Closing a connection that was displaced by one still registered changes and reports nothing. */
  lemma DisplacedCloseSilent(es: seq<Event>, ski: string, id: nat, k: nat)
    requires k < |es| && Current(es, k) && es[k].ski == ski && es[k].id != id
    ensures Closed(AfterAll(es), ski, id) == (AfterAll(es), false)
  {
    MostRecentWins(es, ski, es[k].id);
  }

  /** A close is reported exactly when afterwards no connection to that SKI is left. */
  lemma ReportExact(es: seq<Event>, ski: string, id: nat)
    ensures Closed(AfterAll(es), ski, id).1 <==> ski !in AfterAll(es + [Closes(ski, id)])
  {
  }

  /** Every connection registers once, and only closes after that. */
  predicate Orderly(es: seq<Event>) {
    forall j, k | 0 <= j < k < |es| && es[k].Registers? :: es[j].id != es[k].id
  }

  predicate HasClosed(es: seq<Event>, ski: string, id: nat) {
    exists j | 0 <= j < |es| :: es[j] == Closes(ski, id)
  }

  /**
   The registry holds a connection that has closed if and only if that connection closed, registered after
   that, and is current: a connection that closes before it is registered stays.
   */
  lemma HoldsClosedExact(es: seq<Event>, ski: string, id: nat)
    ensures HasClosed(es, ski, id) && ski in AfterAll(es) && AfterAll(es)[ski] == id
            <==> exists j, k | 0 <= j < k < |es| :: es[j] == Closes(ski, id) && Current(es, k) && es[k] == Registers(ski, id)
  {
    MostRecentWins(es, ski, id);
  }

  /** Such a connection. */
  lemma ClosedStays()
    ensures var es := [Closes("a", 1), Registers("a", 1)];
            HasClosed(es, "a", 1) && AfterAll(es) == map["a" := 1]
  {
    var es := [Closes("a", 1), Registers("a", 1)];
    assert es[0] == Closes("a", 1);
    assert es[..1] == [es[0]] && es[..1][..0] == [];
    assert AfterAll(es[..1]) == map[];
  }

  /** If connections register before they close, the registry never holds a closed one. */
  lemma NeverHoldsClosed(es: seq<Event>, ski: string, id: nat)
    requires Orderly(es) && ski in AfterAll(es) && AfterAll(es)[ski] == id
    ensures !HasClosed(es, ski, id)
  {
    HoldsClosedExact(es, ski, id);
  }
}
