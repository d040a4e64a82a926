/**
 What each event of the hub does to the trust store and the replacement timer, stated on the outcome: which
 record changes, and exactly when the timer is armed or stopped.
 */
module TrustEvents {
  import opened Basics
  import opened Letters
  import opened TrustStore
  import opened TrustMerge
  import opened TrustSlot

  // ---------------------------------------------------------------- the replacement window opens and closes

  /** The record found for a SKI, if any. */
  function BySki(s: Slot, ski: string): Option<nat> {
    Lookup(s.reg, NormalizeSki(ski), "", "")
  }

  predicate NamedAddCu(e: Entry) {
    e.addCu && e.shipId != ""
  }

  /** The timer has just been started for a device. */
  predicate WindowOpen(s: Slot, shipId: string) {
    s.armed && s.tracked == shipId
  }

  /** The close is that of a control unit, which must have been trusted or have completed its handshake. */
  predicate LosesAddCu(s: Slot, e: Event) {
    && e.Closed? && !e.superseded
    && var found := BySki(s, e.ski);
       found.Some? && NamedAddCu(s.reg[found.value]) && (s.reg[found.value].trusted || e.completed)
  }

  /** A closed connection opens the window for the control unit it belonged to, and does nothing else. */
  lemma ClosedExact(s: Slot, e: Event)
    requires e.Closed?
    ensures var t := After(s, e);
            && t.reg == s.reg
            && (LosesAddCu(s, e) ==> WindowOpen(t, s.reg[BySki(s, e.ski).value].shipId))
            && (!LosesAddCu(s, e) ==> t == s)
  {
    hide Lookup;
  }

  /** Requests for pairing whose certificate is not the one given. */
  predicate FromOthers(es: seq<Event>, fingerprint: string) {
    forall i | 0 <= i < |es| :: es[i].Paired? && es[i].fingerprint != fingerprint
  }

  /** After the control unit's connection has closed, no number of requests from other certificates changes anything. */
  lemma {:induction false} ClosedProtects(s: Slot, e: Event, es: seq<Event>)
    requires SlotOk(s) && LosesAddCu(s, e) && FromOthers(es, s.reg[BySki(s, e.ski).value].fingerprint)
    ensures AfterAll(After(s, e), es) == After(s, e)
    decreases |es|
  {
    var i := BySki(s, e.ski).value;
    var t := After(s, e);
    ClosedExact(s, e);
    hide Lookup;
    if es != [] {
      HolderUnique(t.reg, i);
      assert Holds(t.reg[i]);
      assert PairingSuccess(t, es[0].shipId, es[0].fingerprint, es[0].connected) == t;
      ClosedProtects(s, e, es[1..]);
    }
  }

  /** An entry of an offline control unit. */
  predicate Offline(s: Slot, i: nat, online: set<nat>) {
    i < |s.reg| && NamedAddCu(s.reg[i]) && s.reg[i].trusted && i !in online
  }

  /** A starting hub opens the window for the last control unit that is trusted and not connected, if there is one. */
  lemma {:induction false} StartedExact(s: Slot, n: nat, online: set<nat>)
    requires n <= |s.reg|
    ensures var t := StartTimers(s, n, online);
            if exists i: nat | i < n :: Offline(s, i, online)
            then exists i: nat | i < n && Offline(s, i, online) ::
                   WindowOpen(t, s.reg[i].shipId) && forall j: nat | i < j < n :: !Offline(s, j, online)
            else t == s
    decreases n
  {
    if n > 0 {
      StartedExact(s, n - 1, online);
      if Offline(s, n - 1, online) {
        assert WindowOpen(StartTimers(s, n, online), s.reg[n - 1].shipId);
      } else if i: nat :| i < n && Offline(s, i, online) {
        assert i < n - 1;
        var k: nat :| k < n - 1 && Offline(s, k, online) && WindowOpen(StartTimers(s, n - 1, online), s.reg[k].shipId)
                      && forall j: nat | k < j < n - 1 :: !Offline(s, j, online);
        assert Offline(s, k, online);
      }
    }
  }

  /** An expired timer protects nobody: the next request from another certificate evicts the control unit. */
  lemma ExpiredExact(s: Slot, shipId: string, fingerprint: string, connected: bool)
    ensures var t := After(s, Expired);
            && t.reg == s.reg && !t.armed
            && (TrimSpace(fingerprint) != "" && Replaced(s, fingerprint).Some? ==>
                  PairingSuccess(t, shipId, fingerprint, connected)
                  == Trust(Evict(t, Replaced(s, fingerprint).value), shipId, fingerprint, connected))
  {
  }

  // ---------------------------------------------------------------- records go, and lose or gain trust

  predicate WithoutAt(reg: seq<Entry>, i: nat, out: seq<Entry>) {
    && i < |reg| && |out| == |reg| - 1
    && (forall k | 0 <= k < i :: out[k] == reg[k])
    && (forall k | i < k < |reg| :: out[k - 1] == reg[k])
  }

  /** The timer after it was stopped for a device: it stays as it is if it runs for another one. */
  predicate Stopped(s: Slot, shipId: string, t: Slot) {
    if s.tracked == shipId then !t.armed && t.tracked == "" else t.armed == s.armed && t.tracked == s.tracked
  }

  predicate SameTimer(s: Slot, t: Slot) {
    t.armed == s.armed && t.tracked == s.tracked
  }

  /** An eviction removes the record, and stops the timer if it runs for it. */
  lemma EvictedExact(s: Slot, i: nat)
    requires i < |s.reg|
    ensures WithoutAt(s.reg, i, Evict(s, i).reg) && Stopped(s, s.reg[i].shipId, Evict(s, i))
  {
  }

  /**
   Unregistering removes the record that is found and no other, and stops the timer if it runs for it as a
   control unit. If no two records share an identifier, nothing carries one of the record's any more.
   */
  lemma UnregisteredExact(s: Slot, e: Event)
    requires e.Unregistered?
    ensures var t := After(s, e);
            var found := Lookup(s.reg, NormalizeSki(e.ski), e.fingerprint, e.shipId);
            && (found == None ==> t == s)
            && (found.Some? ==>
                  var x := s.reg[found.value];
                  && WithoutAt(s.reg, found.value, t.reg)
                  && (if x.addCu then Stopped(s, x.shipId, t) else SameTimer(s, t))
                  && (Distinct(s.reg) ==> forall k | 0 <= k < |t.reg| :: !Share(x, t.reg[k])))
  {
    var found := Lookup(s.reg, NormalizeSki(e.ski), e.fingerprint, e.shipId);
    if found.Some? {
      EvictedExact(s, found.value);
      if Distinct(s.reg) { WithoutShared(s.reg, found.value, After(s, e).reg); }
    }
    hide Lookup, Share, WithoutAt, RemoveAt, Distinct;
  }

  lemma WithoutShared(reg: seq<Entry>, i: nat, out: seq<Entry>)
    requires Distinct(reg) && WithoutAt(reg, i, out)
    ensures forall k | 0 <= k < |out| :: !Share(reg[i], out[k])
  {
    hide Share;
    forall k | 0 <= k < |out| ensures !Share(reg[i], out[k]) {
      assert out[k] == reg[if k < i then k else k + 1];
    }
  }

  /** Only the record at a place changes. */
  predicate OnlyAt(reg: seq<Entry>, i: nat, e: Entry, out: seq<Entry>) {
    && i < |reg| && |out| == |reg| && out[i] == e
    && forall k | 0 <= k < |reg| && k != i :: out[k] == reg[k]
  }

  /** A cancelled record stays in its place and only loses its trust. */
  lemma CancelledExact(s: Slot, e: Event)
    requires e.Cancelled?
    ensures var t := After(s, e);
            var found := Lookup(s.reg, NormalizeSki(e.ski), e.fingerprint, e.shipId);
            && SameTimer(s, t) && (found == None ==> t == s)
            && (found.Some? ==> OnlyAt(s.reg, found.value, s.reg[found.value].(trusted := false), t.reg))
  {
    hide Lookup;
  }

  /** An accepted hello makes the peer's record trusted; a completed handshake stops the timer of a control unit. */
  lemma UpdatedExact(s: Slot, e: Event)
    requires e.Updated?
    ensures var t := After(s, e);
            var found := BySki(s, e.ski);
            && (found == None ==> t == s)
            && (found.Some? ==>
                  var x := s.reg[found.value];
                  && OnlyAt(s.reg, found.value, x.(trusted := x.trusted || e.helloOk), t.reg)
                  && (if e.complete && NamedAddCu(x) then Stopped(s, x.shipId, t) else SameTimer(s, t)))
  {
    hide Lookup;
  }

  // ---------------------------------------------------------------- records come, and learn

  /** A record with identifiers that agree with those given: the fingerprint and the SHIP ID up to case. */
  predicate Carries(e: Entry, ski: string, fp: string, ship: string) {
    && (ski != "" ==> e.ski == ski) && (fp != "" ==> EqualFold(e.fingerprint, fp))
    && (ship != "" ==> EqualFold(e.shipId, ship))
  }

  /** The merged entry is in the registry, and carries what the candidate gave. */
  lemma MergedCarries(reg: seq<Entry>, cand: Entry) returns (k: nat)
    requires AllNormal(reg) && Normal(cand) && Merge(reg, cand) != Failed
    ensures var t := Merge(reg, cand);
            && k < |t.registry| && t.registry[k] == t.entry
            && Carries(t.entry, cand.ski, cand.fingerprint, cand.shipId)
            && (cand.trusted ==> t.entry.trusted) && (cand.addCu ==> t.entry.addCu)
  {
    var e := Merge(reg, cand).entry;
    var ps := Parties(reg, cand);
    MergeFails(reg, cand);
    MergeKeeps(reg, cand);
    MergeShape(reg, cand);
    assert ps[0] == cand;
    hide Merge, Parties, Matches, Slots, Home, Upper;
    k := SlotAt(reg, cand, Home(reg, cand));
    SameSki(e, cand, ps);
    SamePrint(e, cand, ps);
    SameShip(e, cand, ps);
    assert cand in PartySet(reg, cand) && Trusts(cand) == cand.trusted && IsAddCu(cand) == cand.addCu;
  }

  lemma SameShip(e: Entry, cand: Entry, ps: seq<Entry>)
    requires SumOf(e, set p | p in ps) && !Conflicting(ps) && |ps| > 0 && ps[0] == cand
    ensures cand.shipId != "" ==> EqualFold(e.shipId, cand.shipId)
  {
    if cand.shipId != "" {
      assert cand in ps && ShipOf(cand) == cand.shipId;
      var q :| q in ps && ShipOf(q) == e.shipId;
      var i :| 0 <= i < |ps| && ps[i] == q;
      if i > 0 { assert !Disagree(ps[0], ps[i]); }
    }
  }

  /** The first trusted control unit with both identifiers is in the way of every other certificate, and of no request of its own. */
  lemma ReplacedExact(s: Slot, fingerprint: string, i: nat)
    ensures Replaced(s, fingerprint) == Some(i) <==>
              && i < |s.reg| && Complete(s.reg[i]) && s.reg[i].fingerprint != fingerprint
              && forall j | 0 <= j < i :: !Complete(s.reg[j])
    ensures SlotOk(s) && i < |s.reg| && s.reg[i].addCu ==> Replaced(s, s.reg[i].fingerprint) == None
  {
    if SlotOk(s) && i < |s.reg| && s.reg[i].addCu { HolderUnique(s.reg, i); }
    hide SlotOk;
  }

  predicate Complete(e: Entry) {
    e.addCu && e.trusted && e.fingerprint != "" && e.shipId != ""
  }

  /** A request without a certificate changes nothing. */
  lemma BlankIgnored(s: Slot, e: Event)
    requires e.Paired? && (forall c | c in e.fingerprint :: IsSpace(c))
    ensures After(s, e) == s
  {
    TrimBlank(e.fingerprint);
    hide Trust, Replaced, Evict;
  }

  lemma {:induction false} TrimBlank(s: string)
    requires forall c | c in s :: IsSpace(c)
    ensures TrimSpace(s) == ""
  {
    if s != "" {
      assert s[0] in s;
      TrimBlank(s[1..]);
    }
  }

  /**
   An accepted request leaves a trusted control unit with the request's certificate and SHIP ID. It opens the
   window for it unless it is connected already, and then the timer is as the eviction left it.
   */
  lemma PairedExact(s: Slot, e: Event) returns (k: nat)
    requires e.Paired? && AllNormal(s.reg) && TrimSpace(e.fingerprint) != ""
    requires var prior := Replaced(s, e.fingerprint);
             && (prior.Some? ==> !s.armed || s.tracked == "")
             && !Refused(if prior.Some? then Evict(s, prior.value).reg else s.reg, e.shipId, e.fingerprint)
    ensures var t := After(s, e);
            var prior := Replaced(s, e.fingerprint);
            && k < |t.reg| && t.reg[k].trusted && t.reg[k].addCu && Carries(t.reg[k], "", e.fingerprint, e.shipId)
            && (!e.connected ==> WindowOpen(t, e.shipId))
            && (e.connected ==> SameTimer(if prior.Some? then Evict(s, prior.value) else s, t))
  {
    hide Merge, Replaced, TrimSpace, AllNormal, RemoveAt, Carries, TrustedAddCu;
    var prior := Replaced(s, e.fingerprint);
    if prior.Some? { RemovedNormal(s.reg, prior.value); }
    var u := if prior.Some? then Evict(s, prior.value) else s;
    var cand := Newcomer(e.shipId, e.fingerprint);
    assert NewService("", e.fingerprint, e.shipId).Some?;
    assert cand == NewService("", e.fingerprint, e.shipId).value.(trusted := true, addCu := true) by { NormalizeNothing(); }
    NewcomerNormal(e.shipId, e.fingerprint);
    k := MergedCarries(u.reg, cand);
  }

  function Newcomer(shipId: string, fingerprint: string): Entry {
    Entry("", fingerprint, shipId, "", true, false, true)
  }

  lemma NewcomerNormal(shipId: string, fingerprint: string)
    ensures Normal(Newcomer(shipId, fingerprint))
  {
  }

  lemma NormalizeNothing()
    ensures NormalizeSki("") == ""
  {
  }

  lemma RemovedNormal(reg: seq<Entry>, i: nat)
    requires AllNormal(reg) && i < |reg|
    ensures AllNormal(RemoveAt(reg, i))
  {
    hide Normal;
  }

  /** A service that the application registers, as a candidate. */
  predicate Registers(e: Event, cand: Entry) {
    && e.Registered? && (e.ski != "" || (e.fingerprint != "" && e.shipId != ""))
    && cand == Entry(NormalizeSki(e.ski), e.fingerprint, e.shipId, e.ipv4, true, false, e.addCu)
  }

  /**
   Registering merges a trusted candidate, and opens the window exactly for a control unit with a SHIP ID
   that is not connected while the hub runs; without enough identifiers, or with conflicting ones, nothing happens.
   */
  lemma RegisteredOutcome(s: Slot, e: Event, cand: Entry)
    requires Registers(e, cand)
    ensures var t := After(s, e);
            var m := Merge(s.reg, cand);
            && (m == Failed ==> t == s)
            && (m != Failed ==>
                  && t.reg == m.registry
                  && (if e.started && !e.connected && NamedAddCu(m.entry) && m.entry.trusted
                      then WindowOpen(t, m.entry.shipId) else SameTimer(s, t)))
  {
    hide Merge;
  }

  lemma UnregistrableIgnored(s: Slot, e: Event)
    requires e.Registered? && e.ski == "" && (e.fingerprint == "" || e.shipId == "")
    ensures After(s, e) == s
  {
  }

  /** The peer's SHIP ID is taken over by a record that has none, which is merged with the one that carries it. */
  lemma ReportedExact(s: Slot, e: Event) returns (k: nat)
    requires e.Reported? && AllNormal(s.reg) && e.shipId != ""
    ensures var t := After(s, e);
            var found := BySki(s, e.ski);
            && SameTimer(s, t)
            && (found == None || s.reg[found.value].shipId != "" ==> t == s)
            && (found.Some? && s.reg[found.value].shipId == "" ==>
                  var x := s.reg[found.value];
                  && k < |t.reg| && Carries(t.reg[k], x.ski, x.fingerprint, e.shipId)
                  && (x.trusted ==> t.reg[k].trusted) && (x.addCu ==> t.reg[k].addCu))
  {
    hide Lookup, Merge, AllNormal, Carries;
    k := 0;
    var found := BySki(s, e.ski);
    if found.Some? && s.reg[found.value].shipId == "" {
      StaysNormal(s.reg, found.value, e.shipId);
      k := LearnsInPlace(s, found.value, s.reg[found.value].(shipId := e.shipId));
    }
  }

  lemma StaysNormal(reg: seq<Entry>, i: nat, shipId: string)
    requires AllNormal(reg) && i < |reg|
    ensures Normal(reg[i].(shipId := shipId))
  {
    assert Normal(reg[i]);
  }

  /** A record is replaced by one that knows more, and this is merged with the others. */
  lemma LearnsInPlace(s: Slot, i: nat, e: Entry) returns (k: nat)
    requires AllNormal(s.reg) && i < |s.reg| && Normal(e)
    ensures var m := Merge(s.reg[i := e], e);
            var reg := if m == Failed then s.reg[i := e] else m.registry;
            && k < |reg| && Carries(reg[k], e.ski, e.fingerprint, e.shipId)
            && (e.trusted ==> reg[k].trusted) && (e.addCu ==> reg[k].addCu)
  {
    var reg := s.reg[i := e];
    assert AllNormal(reg) by { hide Normal; }
    if Merge(reg, e) == Failed { k := i; } else { k := MergedCarries(reg, e); }
  }

  /** A record takes over the SKI and the fingerprint it did not have, and is merged with the ones that carry them. */
  lemma LearntExact(s: Slot, i: nat, ski: string, fingerprint: string) returns (k: nat)
    requires AllNormal(s.reg) && i < |s.reg|
    ensures var t := Learn(s, i, ski, fingerprint);
            var x := s.reg[i];
            && SameTimer(s, t) && k < |t.reg|
            && Carries(t.reg[k], if x.ski == "" then NormalizeSki(ski) else x.ski,
                       if x.fingerprint == "" then fingerprint else x.fingerprint, x.shipId)
            && (x.trusted ==> t.reg[k].trusted) && (x.addCu ==> t.reg[k].addCu)
  {
    var e := Learned(s.reg[i], ski, fingerprint);
    assert Normal(e) by { assert Normal(s.reg[i]); }
    k := LearnsInPlace(s, i, e);
  }

  /**
   A discovered device is learnt by the first trusted record with its SHIP ID, if this has no SKI and a
   well-formed fingerprint, and if no record has that SKI; in every other case nothing happens.
   */
  lemma DiscoveredExact(s: Slot, e: Event)
    requires e.Discovered?
    ensures (exists i: nat :: Discovers(s, e, i)) || After(s, e) == s
    ensures forall i: nat | Discovers(s, e, i) :: After(s, e) == Learn(s, i, e.ski, "")
  {
    hide Lookup, Learn;
    var at := TrustedNamed(s.reg, e.shipId);
    if at.Some? && After(s, e) != s { assert Discovers(s, e, at.value); }
    forall i: nat | Discovers(s, e, i) ensures at == Some(i) {}
  }

  predicate Discovers(s: Slot, e: Event, i: nat) {
    && e.Discovered? && BySki(s, e.ski) == None && e.valid && e.shipId != ""
    && i < |s.reg| && s.reg[i].trusted && s.reg[i].shipId == e.shipId && s.reg[i].ski == ""
    && forall j | 0 <= j < i :: !(s.reg[j].trusted && s.reg[j].shipId == e.shipId)
  }

  /** A record that is dialled learns the certificate, and the SKI only if the certificate is the one it names. */
  lemma CertifiedExact(s: Slot, e: Event) returns (k: nat)
    requires e.Certified? && AllNormal(s.reg) && e.at < |s.reg|
    ensures var t := After(s, e);
            var x := s.reg[e.at];
            && SameTimer(s, t) && k < |t.reg|
            && Carries(t.reg[k], if x.ski == "" && x.fingerprint == e.fingerprint then NormalizeSki(e.ski) else x.ski,
                       if x.fingerprint == "" then e.fingerprint else x.fingerprint, x.shipId)
            && (x.trusted ==> t.reg[k].trusted) && (x.addCu ==> t.reg[k].addCu)
  {
    k := LearntExact(s, e.at, if s.reg[e.at].fingerprint == e.fingerprint then e.ski else "", e.fingerprint);
    hide Learn, AllNormal;
  }

  /** A candidate that is merged leaves a record that carries what it gave; one that is refused changes nothing. */
  lemma AddedOutcome(s: Slot, e: Event) returns (k: nat)
    requires e.Added? && AllNormal(s.reg) && Normal(e.entry)
    ensures var t := After(s, e);
            && SameTimer(s, t) && (Merge(s.reg, e.entry) == Failed ==> t == s)
            && (Merge(s.reg, e.entry) != Failed ==>
                  && k < |t.reg| && Carries(t.reg[k], e.entry.ski, e.entry.fingerprint, e.entry.shipId)
                  && (e.entry.trusted ==> t.reg[k].trusted) && (e.entry.addCu ==> t.reg[k].addCu))
  {
    k := 0;
    if Merge(s.reg, e.entry) != Failed { k := MergedCarries(s.reg, e.entry); }
    hide Merge;
  }
}
