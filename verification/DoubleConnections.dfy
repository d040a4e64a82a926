/**
 Two hubs that have several connections to each other (hub/hub_connections_registry.go, section 12.2.2 of SHIP
 TS 1.0.1). Each keeps the one it registered last and closes the others; closing reaches both ends. The
 smaller SKI does not wait for the bigger one to decide, so the two may decide differently.
 */
module DoubleConnections {
  import opened Basics
  import opened ConnectionRegistry

  predicate RegisteredIn(es: seq<Event>, id: nat) {
    exists k | 0 <= k < |es| :: es[k].Registers? && es[k].id == id
  }

  predicate ClosedIn(es: seq<Event>, id: nat) {
    exists k | 0 <= k < |es| :: es[k].Closes? && es[k].id == id
  }

  /** The registration at k displaces the connection, which is then retired. */
  predicate Displaces(es: seq<Event>, k: nat, id: nat) {
    k < |es| && es[k].Registers? && Register(AfterAll(es[..k]), es[k].ski, es[k].id).1 == Some(id)
  }

  predicate Retired(es: seq<Event>, id: nat) {
    exists k | 0 <= k < |es| :: Displaces(es, k, id)
  }

  predicate AllFor(es: seq<Event>, ski: string) {
    forall k | 0 <= k < |es| :: es[k].ski == ski
  }

  /**
   What two ends have seen of their connections to each other when everything has come to rest: the same
   connections, each registered once and closed only after that, and exactly the retired ones closed.
   */
  ghost predicate Settled(a: seq<Event>, b: seq<Event>, skiA: string, skiB: string) {
    && AllFor(a, skiB) && AllFor(b, skiA) && Orderly(a) && Orderly(b)
    && (forall id :: RegisteredIn(a, id) <==> RegisteredIn(b, id))
    && (forall id :: ClosedIn(a, id) <==> Retired(a, id) || Retired(b, id))
    && (forall id :: ClosedIn(b, id) <==> Retired(a, id) || Retired(b, id))
  }

  /** The registration at k is the last one. */
  predicate Last(es: seq<Event>, k: nat) {
    k < |es| && es[k].Registers? && forall j | k < j < |es| :: es[j].Closes?
  }

  lemma {:induction false} NextRegistration(es: seq<Event>, j: nat, n: nat) returns (k: nat)
    requires j < n < |es| && es[n].Registers?
    ensures j < k <= n && es[k].Registers? && forall i | j < i < k :: es[i].Closes?
    decreases n - j
  {
    k := j + 1;
    while !es[k].Registers?
      invariant j < k <= n && forall i | j < i < k :: es[i].Closes?
      decreases n - k
    {
      k := k + 1;
    }
  }

  /** A connection that is not the last one an end registered is closed. */
  lemma EarlierIsClosed(es: seq<Event>, ski: string, j: nat, n: nat)
    requires AllFor(es, ski) && Orderly(es) && j < n < |es| && es[j].Registers? && es[n].Registers?
    requires forall id | Retired(es, id) :: ClosedIn(es, id)
    ensures ClosedIn(es, es[j].id)
  {
    var k := NextRegistration(es, j, n);
    var rest := es[..k];
    if !ClosedIn(es, es[j].id) {
      assert Current(rest, j);
      MostRecentWins(rest, ski, es[j].id);
      assert Displaces(es, k, es[j].id);
    }
  }

  /** The last connection an end registered was not retired there. */
  lemma LastIsNotRetired(es: seq<Event>, ski: string, n: nat)
    requires AllFor(es, ski) && Orderly(es) && Last(es, n)
    ensures !Retired(es, es[n].id)
  {
    forall k | 0 <= k < |es| ensures !Displaces(es, k, es[n].id) {
      var rest := es[..k];
      assert forall i | 0 <= i < |rest| && es[k].Registers? :: rest[i].id != es[n].id;
      MostRecentWins(rest, ski, es[n].id);
    }
  }

  /** What an end holds in the end: the last connection it registered, unless that was closed. */
  lemma HoldsLast(es: seq<Event>, ski: string, n: nat)
    requires AllFor(es, ski) && Orderly(es) && Last(es, n)
    ensures if ClosedIn(es, es[n].id) then ski !in AfterAll(es) else ski in AfterAll(es) && AfterAll(es)[ski] == es[n].id
  {
    if ClosedIn(es, es[n].id) {
      var c :| 0 <= c < |es| && es[c].Closes? && es[c].id == es[n].id;
      assert n < c;
      if ski in AfterAll(es) {
        var id := AfterAll(es)[ski];
        MostRecentWins(es, ski, id);
        var k :| 0 <= k < |es| && Current(es, k) && es[k].ski == ski && es[k].id == id;
        OnlyLast(es, ski, n, k);
      }
    } else {
      assert Current(es, n);
      MostRecentWins(es, ski, es[n].id);
    }
  }

  lemma OnlyLast(es: seq<Event>, ski: string, n: nat, k: nat)
    requires AllFor(es, ski) && Last(es, n) && Current(es, k)
    ensures k == n
  {
  }

  lemma SettledAt(a: seq<Event>, b: seq<Event>, skiA: string, skiB: string, id: nat)
    requires Settled(a, b, skiA, skiB)
    ensures AllFor(a, skiB) && AllFor(b, skiA) && Orderly(a) && Orderly(b)
    ensures RegisteredIn(a, id) <==> RegisteredIn(b, id)
    ensures ClosedIn(a, id) <==> Retired(a, id) || Retired(b, id)
    ensures ClosedIn(b, id) <==> Retired(a, id) || Retired(b, id)
  {
    hide RegisteredIn, ClosedIn, Retired;
  }

  /**
   Two ends that have come to rest keep the same connection if they registered the same one last; otherwise
   both have closed the one the other kept, and neither has any connection left.
   */
  lemma KeepSameOrNone(a: seq<Event>, b: seq<Event>, skiA: string, skiB: string, m: nat, n: nat)
    requires Settled(a, b, skiA, skiB) && Last(a, m) && Last(b, n)
    ensures if a[m].id == b[n].id
            then && skiB in AfterAll(a) && AfterAll(a)[skiB] == a[m].id
                 && skiA in AfterAll(b) && AfterAll(b)[skiA] == b[n].id
            else skiB !in AfterAll(a) && skiA !in AfterAll(b)
  {
    var x, y := a[m].id, b[n].id;
    assert RegisteredIn(a, x) && RegisteredIn(b, y);
    SettledAt(a, b, skiA, skiB, x);
    SettledAt(a, b, skiA, skiB, y);
    if x != y {
      forall id ensures Retired(a, id) || Retired(b, id) ==> ClosedIn(a, id) && ClosedIn(b, id) { SettledAt(a, b, skiA, skiB, id); }
      OtherIsClosed(a, skiB, m, y);
      OtherIsClosed(b, skiA, n, x);
    }
    hide Settled, Last, AllFor, Orderly, Retired, ClosedIn, AfterAll;
    LastIsNotRetired(a, skiB, m);
    LastIsNotRetired(b, skiA, n);
    HoldsLast(a, skiB, m);
    HoldsLast(b, skiA, n);
  }

  lemma OtherIsClosed(es: seq<Event>, ski: string, n: nat, id: nat)
    requires AllFor(es, ski) && Orderly(es) && Last(es, n) && RegisteredIn(es, id) && id != es[n].id
    requires forall i | Retired(es, i) :: ClosedIn(es, i)
    ensures ClosedIn(es, id)
  {
    var j :| 0 <= j < |es| && es[j].Registers? && es[j].id == id;
    hide Retired, ClosedIn;
    EarlierIsClosed(es, ski, j, n);
  }

  /** A true crossing: the ends register two connections in opposite orders, and both lose both. */
  lemma CrossingLosesBoth(skiA: string, skiB: string)
    ensures var a := [Registers(skiB, 1), Registers(skiB, 2), Closes(skiB, 1), Closes(skiB, 2)];
            var b := [Registers(skiA, 2), Registers(skiA, 1), Closes(skiA, 2), Closes(skiA, 1)];
            Settled(a, b, skiA, skiB) && skiB !in AfterAll(a) && skiA !in AfterAll(b)
  {
    var a := [Registers(skiB, 1), Registers(skiB, 2), Closes(skiB, 1), Closes(skiB, 2)];
    var b := [Registers(skiA, 2), Registers(skiA, 1), Closes(skiA, 2), Closes(skiA, 1)];
    CrossedAt(a, skiB, 1, 2);
    CrossedAt(b, skiA, 2, 1);
    hide Retired, ClosedIn, RegisteredIn;
    KeepSameOrNone(a, b, skiA, skiB, 1, 1);
  }

  /** One end of it: x is displaced by y, and both are closed. */
  lemma CrossedAt(es: seq<Event>, ski: string, x: nat, y: nat)
    requires es == [Registers(ski, x), Registers(ski, y), Closes(ski, x), Closes(ski, y)] && x != y
    ensures AllFor(es, ski) && Orderly(es) && Last(es, 1)
    ensures forall id :: (RegisteredIn(es, id) <==> id == x || id == y) && (ClosedIn(es, id) <==> id == x || id == y)
    ensures forall id :: Retired(es, id) <==> id == x
  {
    assert es[0].Registers? && es[1].Registers? && es[2].Closes? && es[3].Closes?;
    assert es[..0] == [] && es[..1] == [es[0]] && es[..1][..0] == [];
    assert AfterAll(es[..1]) == map[ski := x];
    assert Displaces(es, 1, x);
    forall id | Retired(es, id) ensures id == x {
      var k :| 0 <= k < |es| && Displaces(es, k, id);
      assert k == 0 || k == 1;
    }
  }
}
