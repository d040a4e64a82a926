/**
 The ring buffer of accepted pairing digests (pairing/ring_buffer.go, section 11 of the SHIP Pairing
 Service specification) as a refinement of a log.
 */
module RingBuffer {
  import opened Basics

  datatype Digest = Digest(alg: string, value: string)

  const EMPTY := Digest("", "")

  /** The contents from the oldest to the most recent, starting at the place to be written next. */
  function Recent(entries: seq<Digest>, next: nat): (r: seq<Digest>)
    requires next < |entries|
    ensures |r| == |entries|
  {
    entries[next..] + entries[..next]
  }

  function Blank(n: nat): (r: seq<Digest>)
    ensures |r| == n && forall i | 0 <= i < n :: r[i] == EMPTY
  {
    seq(n, i => EMPTY)
  }

  /** The last n of a log, preceded by unused places when there are fewer. */
  function Window(log: seq<Digest>, n: nat): (r: seq<Digest>)
    ensures |r| == n
  {
    (Blank(n) + log)[|log|..]
  }

  /** The last n of a log. */
  function Last(log: seq<Digest>, n: nat): seq<Digest> {
    if |log| <= n then log else log[|log| - n..]
  }

  lemma WindowGrows(log: seq<Digest>, n: nat, d: Digest)
    requires n > 0
    ensures Window(log + [d], n) == Window(log, n)[1..] + [d]
  {
  }

  /** A pair with an algorithm is in the window exactly when it is among the last n. */
  lemma WindowHolds(log: seq<Digest>, n: nat, d: Digest)
    requires d.alg != ""
    ensures d in Window(log, n) <==> d in Last(log, n)
  {
    var w := Window(log, n);
    if |log| >= n {
      assert w == Last(log, n);
    } else {
      assert w == Blank(n)[|log|..] + log;
      assert d !in Blank(n)[|log|..];
    }
  }

  lemma WindowEnds(log: seq<Digest>, n: nat)
    requires n > 0
    ensures log == [] ==> Window(log, n)[n - 1] == EMPTY
    ensures log != [] ==> Window(log, n)[n - 1] == log[|log| - 1]
  {
  }

  // ---------------------------------------------------------------- loading

  /** What is loaded into a ring of the given size, or nothing if the stored index is out of range. */
  function Loaded(stored: seq<Digest>, index: int, size: nat): Option<(seq<Digest>, nat)>
    requires size > 0
  {
    if stored == [] then Some((Blank(size), 0))
    else if index < 0 || index >= |stored| then None
    else if |stored| == size then Some((stored, index))
    else
      var kept := if |stored| > size then stored[..size] else stored + Blank(size - |stored|);
      Some((kept, if index >= size then index % size else index))
  }

  /** Every successful load leaves a full-size buffer with the index in range. */
  lemma LoadedInRange(stored: seq<Digest>, index: int, size: nat)
    requires size > 0 && Loaded(stored, index, size).Some?
    ensures var (entries, next) := Loaded(stored, index, size).value; |entries| == size && next < size
  {
  }

  /** A ring reloaded at its own size is the ring that was saved. */
  lemma ReloadSame(entries: seq<Digest>, next: nat)
    requires next < |entries|
    ensures Loaded(entries, next, |entries|) == Some((entries, next))
  {
  }

  /** Dropping from the front of a sequence with a gap keeps what dropping without the gap keeps. */
  lemma GapKeeps(a: seq<Digest>, gap: seq<Digest>, b: seq<Digest>, r: nat)
    requires r <= |a| + |b|
    ensures forall d | d in (a + b)[r..] :: d in (a + gap + b)[r..]
  {
    forall d | d in (a + b)[r..] ensures d in (a + gap + b)[r..] {
      var i :| r <= i < |a + b| && (a + b)[i] == d;
      var j := if i < |a| then i else i + |gap|;
      assert (a + gap + b)[j] == d;
      assert (a + gap + b)[r..][j - r] == d;
    }
  }

  /** What recording a further sequence does to the contents. */
  function Recorded(recent: seq<Digest>, more: seq<Digest>): (r: seq<Digest>)
    ensures |r| == |recent|
  {
    (recent + more)[|more|..]
  }

  /** GetCurrentEntry. */
  function Current(entries: seq<Digest>, next: nat): Option<Digest>
    requires next < |entries|
  {
    if next == 0 && entries[0].alg == "" then None else
    var e := entries[if next == 0 then |entries| - 1 else next - 1];
    if e.alg == "" then None else Some(e)
  }

  /** A ring about to write its first place, which is unused, counts as empty whatever else persistence has put into it. */
  lemma UnusedStart(entries: seq<Digest>, next: nat, d: Digest)
    requires next < |entries|
    ensures next == 0 && entries[0].alg == "" ==> Current(entries, next) == None
    ensures next > 0 || entries[0].alg != "" ==>
              (Current(entries, next) == Some(d) <==> d.alg != "" && Recent(entries, next)[|entries| - 1] == d)
  {
  }

  /**
   After enlarging, the most recent entry is still reported exactly when the saved index was not zero or
   nothing had been recorded: with index zero the code looks at an unused place.
   */
  lemma EnlargedCurrent(entries: seq<Digest>, next: nat, size: nat)
    requires next < |entries| < size
    ensures var (big, at) := Loaded(entries, next, size).value;
            Current(big, at) == Current(entries, next) <==> next != 0 || Current(entries, next) == None
  {
  }

  lemma FullWindow(log: seq<Digest>)
    ensures Window(log, |log|) == log
  {
  }

  lemma EnlargedBlank(entries: seq<Digest>)
    requires |entries| == 10 && entries[0].alg != ""
    ensures var (big, at) := Loaded(entries, 0, 11).value; Current(big, at) == None
  {
    assert (entries + Blank(1))[10] == EMPTY;
  }

  /** A ring of ten that was filled exactly once has its index at zero; enlarged, it reports no current entry. */
  lemma EnlargedLosesCurrent(d: Digest)
    requires d.alg != ""
    ensures var log := seq(10, i => d);
            && StandsFor(log, 0, log) && Current(log, 0) == Some(d)
            && var (big, at) := Loaded(log, 0, 11).value; Current(big, at) == None
  {
    var log := seq(10, i => d);
    FullWindow(log);
    assert Recent(log, 0) == log && log[9] == d;
    assert Current(log, 0) == Some(d);
    hide Current, Loaded;
    EnlargedBlank(log);
  }

  /** The ring holds the last of the log, and its unused places come after the used ones. */
  predicate StandsFor(entries: seq<Digest>, next: nat, log: seq<Digest>) {
    && next < |entries| && Recent(entries, next) == Window(log, |entries|)
    && (|log| < |entries| ==> next == |log|)
  }

  /** Writing at the next place and moving on. */
  function Written(entries: seq<Digest>, next: nat, d: Digest): (seq<Digest>, nat)
    requires next < |entries|
  {
    (entries[next := d], if next + 1 >= |entries| then 0 else next + 1)
  }

  lemma WrittenRecent(entries: seq<Digest>, next: nat, d: Digest)
    requires next < |entries|
    ensures var (e, n) := Written(entries, next, d);
            |e| == |entries| && n < |e| && Recent(e, n) == Recent(entries, next)[1..] + [d]
            && n == if next + 1 == |entries| then 0 else next + 1
  {
    var (e, n) := Written(entries, next, d);
    assert e[..next + 1] == entries[..next] + [d];
    assert e[next + 1..] == entries[next + 1..] == entries[next..][1..];
    if n == 0 { assert e == e[..next + 1] && Recent(e, n) == e && entries[next..][1..] == []; }
  }

  lemma WrittenStands(entries: seq<Digest>, next: nat, log: seq<Digest>, d: Digest)
    requires StandsFor(entries, next, log)
    ensures var (e, n) := Written(entries, next, d); StandsFor(e, n, log + [d])
  {
    var (e, n) := Written(entries, next, d);
    WindowGrows(log, |entries|, d);
    WrittenRecent(entries, next, d);
    hide Recent, Window, Written;
  }

  // ---------------------------------------------------------------- RingBufferHistoryProvider

  class RingBufferHistoryProvider {
    const maxSize: nat
    var entries: array<Digest>
    var next: nat

    // What persistence holds.
    var stored: seq<Digest>
    var storedNext: int

    ghost predicate Valid()
      reads this, entries
    {
      maxSize >= 10 && entries.Length == maxSize && next < maxSize
    }

    /** The log this ring stands for; entries it cannot hold any more are forgotten. */
    ghost predicate Holds(log: seq<Digest>)
      requires Valid()
      reads this, entries
    {
      StandsFor(entries[..], next, log)
    }

    /** The configured size, but never less than the specification asks for. */
    static function SizeFor(configured: int): nat {
      if configured < 10 then 10 else configured
    }

    constructor (configured: int, stored: seq<Digest>, storedNext: int)
      ensures maxSize == SizeFor(configured)
      ensures this.stored == stored && this.storedNext == storedNext && fresh(entries)
      ensures Valid() && next == 0 && entries[..] == Blank(maxSize)
    {
      var size := SizeFor(configured);
      maxSize := size;
      entries := new Digest[size](i => EMPTY);
      next := 0;
      this.stored, this.storedNext := stored, storedNext;
      new;
      assert entries[..] == Blank(maxSize);
    }

    /** loadFromPersistence. */
    method LoadFromPersistence() returns (ok: bool)
      requires Valid()
      modifies this
      ensures ok <==> Loaded(stored, storedNext, maxSize).Some?
      ensures Valid() && (!ok ==> entries == old(entries) && next == old(next))
      ensures ok && stored == [] ==> entries == old(entries) && next == old(next)
      ensures ok && stored != [] ==> (entries[..], next) == Loaded(stored, storedNext, maxSize).value && fresh(entries)
      ensures stored == old(stored) && storedNext == old(storedNext)
    {
      var source := stored;
      if |source| == 0 { return true; }
      if storedNext < 0 || storedNext >= |source| { return false; }
      var index := storedNext;
      var loaded := new Digest[maxSize](i => EMPTY);
      var copySize := if |source| > maxSize then maxSize else |source|;
      var i := 0;
      while i < copySize
        invariant 0 <= i <= copySize && Valid() && stored == source && storedNext == index
        invariant entries == old(entries) && next == old(next)
        invariant loaded[..] == source[..i] + Blank(maxSize - i)
      {
        loaded[i] := source[i];
        i := i + 1;
      }
      if |source| != maxSize && index >= maxSize { index := index % maxSize; }
      if |source| > maxSize {
        assert loaded[..] == source[..maxSize];
      } else if |source| == maxSize {
        assert loaded[..] == source;
      } else {
        assert loaded[..] == source + Blank(maxSize - |source|);
      }
      entries := loaded;
      next := index;
      ok := true;
    }

    /** NewRingBufferHistoryProvider: nothing, if the stored state is refused. */
    static method NewRingBufferHistoryProvider(configured: int, stored: seq<Digest>, storedNext: int)
      returns (r: Option<RingBufferHistoryProvider>)
      ensures r.Some? <==> Loaded(stored, storedNext, SizeFor(configured)).Some?
      ensures r.Some? ==>
                && fresh(r.value) && r.value.Valid() && r.value.maxSize == SizeFor(configured)
                && (r.value.entries[..], r.value.next) == Loaded(stored, storedNext, SizeFor(configured)).value
                && r.value.stored == stored && r.value.storedNext == storedNext
    {
      var provider := new RingBufferHistoryProvider(configured, stored, storedNext);
      var ok := provider.LoadFromPersistence();
      r := if ok then Some(provider) else None;
    }

    method HasSeenDigest(alg: string, digest: string) returns (seen: bool)
      requires Valid()
      ensures seen <==> Digest(alg, digest) in Recent(entries[..], next)
    {
      var i := 0;
      while i < maxSize
        invariant 0 <= i <= maxSize
        invariant forall k | 0 <= k < i :: entries[k] != Digest(alg, digest)
      {
        if entries[i].alg == alg && entries[i].value == digest {
          assert entries[..][i] == Digest(alg, digest);
          RecentSame(entries[..], next);
          return true;
        }
        i := i + 1;
      }
      RecentSame(entries[..], next);
      seen := false;
    }

    static lemma RecentSame(s: seq<Digest>, next: nat)
      requires next < |s|
      ensures forall d :: d in Recent(s, next) <==> d in s
    {
    }

    /** RecordPairing; saved says whether persistence accepted the state, which is not required. */
    method RecordPairing(alg: string, digest: string, saved: bool)
      requires Valid()
      modifies this, entries
      ensures Valid() && entries == old(entries)
      ensures (entries[..], next) == Written(old(entries[..]), old(next), Digest(alg, digest))
      ensures if saved then stored == entries[..] && storedNext == next
              else stored == old(stored) && storedNext == old(storedNext)
    {
      entries[next] := Digest(alg, digest);
      next := next + 1;
      if next >= maxSize { next := 0; }
      if saved { stored, storedNext := entries[..], next; }
    }

    /** GetCurrentEntry. */
    method GetCurrentEntry() returns (r: Option<Digest>)
      requires Valid()
      ensures r == Current(entries[..], next)
    {
      if next == 0 && entries[0].alg == "" { return None; }
      var current: int := next - 1;
      if current < 0 { current := maxSize - 1; }
      if entries[current].alg == "" { return None; }
      r := Some(entries[current]);
    }
  }

  // ---------------------------------------------------------------- the ring and its log

  /** Recording a sequence of pairs. */
  function WriteAll(entries: seq<Digest>, next: nat, more: seq<Digest>): (seq<Digest>, nat)
    requires next < |entries|
    decreases |more|
  {
    if more == [] then (entries, next) else
    var (e, n) := Written(entries, next, more[0]);
    WriteAll(e, n, more[1..])
  }

  lemma {:induction false} WriteAllRecent(entries: seq<Digest>, next: nat, more: seq<Digest>)
    requires next < |entries|
    ensures var (e, n) := WriteAll(entries, next, more);
            n < |e| && |e| == |entries| && Recent(e, n) == Recorded(Recent(entries, next), more)
    decreases |more|
  {
    if more != [] {
      var (e, n) := Written(entries, next, more[0]);
      WriteAllRecent(e, n, more[1..]);
      assert Recent(e, n) == Recent(entries, next)[1..] + [more[0]];
      assert Recent(entries, next) + more == Recent(entries, next) + [more[0]] + more[1..];
    }
  }

  lemma RecordedIsWindow(log: seq<Digest>, n: nat, more: seq<Digest>)
    requires n > 0
    ensures Recorded(Window(log, n), more) == Window(log + more, n)
  {
    assert Blank(n) + log + more == Blank(n) + (log + more);
  }

  lemma RecentOfEnlarged(entries: seq<Digest>, next: nat, gap: seq<Digest>, more: seq<Digest>)
    requires next < |entries|
    ensures Recent(entries + gap, next) + more == entries[next..] + gap + (entries[..next] + more)
    ensures Recent(entries, next) + more == entries[next..] + (entries[..next] + more)
  {
  }

  /**
   A ring of n that stands for a log and is reloaded into a larger one still finds, after any number of
   further pairings, each of the last n that were recorded before and after.
   */
  lemma EnlargedKeepsLast(entries: seq<Digest>, next: nat, log: seq<Digest>, size: nat, more: seq<Digest>, d: Digest)
    requires StandsFor(entries, next, log) && |entries| < size
    requires d.alg != "" && d in Last(log + more, |entries|)
    ensures var (big, at) := Loaded(entries, next, size).value;
            var (e, n) := WriteAll(big, at, more);
            n < |e| && d in Recent(e, n)
  {
    var gap := Blank(size - |entries|);
    var big := entries + gap;
    assert Loaded(entries, next, size) == Some((big, next));
    WriteAllRecent(big, next, more);
    RecentOfEnlarged(entries, next, gap, more);
    RecordedIsWindow(log, |entries|, more);
    WindowHolds(log + more, |entries|, d);
    hide Recent, Loaded, Window, WriteAll, Last;
    GapKeeps(entries[next..], gap, entries[..next] + more, |more|);
  }

  /** The most recent entry of a ring that stands for a log of real algorithms is the last of the log. */
  lemma CurrentIsLast(entries: seq<Digest>, next: nat, log: seq<Digest>)
    requires StandsFor(entries, next, log) && forall i | 0 <= i < |log| :: log[i].alg != ""
    ensures Current(entries, next) == if log == [] then None else Some(log[|log| - 1])
  {
    var n := |entries|;
    WindowEnds(log, n);
    var r := Recent(entries, next);
    assert r[n - 1] == entries[if next == 0 then n - 1 else next - 1];
    if log != [] && next == 0 {
      assert entries == r;
      assert Window(log, n)[0] == log[|log| - n];
    }
  }

  /** In a ring that stands for a log, a pair with an algorithm is found exactly when it is among the last. */
  lemma SeenExact(entries: seq<Digest>, next: nat, log: seq<Digest>, d: Digest)
    requires StandsFor(entries, next, log) && d.alg != ""
    ensures d in Recent(entries, next) <==> d in Last(log, |entries|)
  {
    WindowHolds(log, |entries|, d);
  }

  /** A ring remembers as many digests as are configured, but at least ten. */
  lemma ConfiguredWindow(configured: int, entries: seq<Digest>, next: nat, log: seq<Digest>, d: Digest)
    requires |entries| == RingBufferHistoryProvider.SizeFor(configured) && StandsFor(entries, next, log) && d.alg != ""
    ensures d in Recent(entries, next) <==> d in Last(log, if configured > 10 then configured else 10)
  {
    SeenExact(entries, next, log, d);
  }

  /** A smaller ring keeps the places from the front on, and the index as far as it fits. */
  lemma ShrunkKeepsFront(stored: seq<Digest>, index: nat, size: nat, k: nat)
    requires 0 < size < |stored| && index < |stored| && k < size
    ensures var l := Loaded(stored, index, size);
            l.Some? && l.value.0[k] == stored[k] && l.value.1 < size && exists n :: index == l.value.1 + n * size
  {
    var at := Loaded(stored, index, size).value.1;
    assert index == at + (if index >= size then index / size else 0) * size;
  }

  /** An empty ring stands for the empty log. */
  lemma EmptyStands(n: nat)
    requires n > 0
    ensures StandsFor(Blank(n), 0, [])
  {
  }
}
