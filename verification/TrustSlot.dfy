/**
 The place for one control unit in the trust store (hub/hub_pairing.go, hub/addcu_replacement_tracker.go):
 pairing replaces its holder, but not while the replacement timer is armed.
 */
module TrustSlot {
  import opened Basics
  import opened Letters
  import opened TrustStore
  import opened TrustMerge

  /** The registry and the replacement timer. */
  datatype Slot = Slot(reg: seq<Entry>, tracked: string, armed: bool)

  // ---------------------------------------------------------------- AddCuReplacementTracker

  function StartTimer(s: Slot, shipId: string): Slot {
    s.(tracked := shipId, armed := true)
  }

  function StopTimer(s: Slot, shipId: string): Slot {
    if s.tracked != shipId then s else s.(tracked := "", armed := false)
  }

  predicate InReplacementWindow(s: Slot) {
    s.tracked != "" && s.armed
  }

  // ---------------------------------------------------------------- events

  /** GetTrustedAddCuDevice: the first complete trusted control unit. */
  function TrustedAddCu(reg: seq<Entry>): (r: Option<nat>)
    ensures r.Some? ==> r.value < |reg| && Holds(reg[r.value])
    ensures forall i | 0 <= i < (if r.Some? then r.value else |reg|) :: !Holds(reg[i])
  {
    if reg == [] then None else
    var r := TrustedAddCu(reg[..|reg| - 1]);
    if r.Some? then r else if Holds(reg[|reg| - 1]) then Some(|reg| - 1) else None
  }

  predicate Holds(e: Entry) {
    e.trusted && e.addCu && e.shipId != "" && e.fingerprint != ""
  }

  function RemoveAt(reg: seq<Entry>, i: nat): seq<Entry>
    requires i < |reg|
  {
    reg[..i] + reg[i + 1..]
  }

  /** The part of a pairing success after the previous device was dealt with. */
  function Trust(s: Slot, shipId: string, fingerprint: string, connected: bool): Slot {
    match NewService("", fingerprint, shipId)
    case None => s
    case Some(e) =>
      match Merge(s.reg, e.(trusted := true, addCu := true))
      case Failed => s
      case Merged(reg, _) => if connected then s.(reg := reg) else StartTimer(s.(reg := reg), shipId)
  }

  /** The device that a request from another certificate would replace. */
  function Replaced(s: Slot, fingerprint: string): (r: Option<nat>)
    ensures r.Some? ==> r.value < |s.reg|
  {
    var held := TrustedAddCu(s.reg);
    if held.Some? && s.reg[held.value].fingerprint != fingerprint then held else None
  }

  function Evict(s: Slot, i: nat): Slot
    requires i < |s.reg|
  {
    StopTimer(s.(reg := RemoveAt(s.reg, i)), s.reg[i].shipId)
  }

  /** OnPairingSuccess; connected says whether the device is connected already. */
  function PairingSuccess(s: Slot, shipId: string, fingerprint: string, connected: bool): Slot {
    var prior := Replaced(s, fingerprint);
    if TrimSpace(fingerprint) == "" then s
    else if prior == None then Trust(s, shipId, fingerprint, connected)
    else if InReplacementWindow(s) then s
    else Trust(Evict(s, prior.value), shipId, fingerprint, connected)
  }

  /** UnregisterRemoteService. */
  function Unregister(s: Slot, ski: string, fingerprint: string, shipId: string): Slot {
    match Lookup(s.reg, NormalizeSki(ski), fingerprint, shipId)
    case None => s
    case Some(i) => if s.reg[i].addCu then Evict(s, i) else s.(reg := RemoveAt(s.reg, i))
  }

  /** The trust part of HandleConnectionClosed; superseded connections are not reported. */
  function ConnectionClosed(s: Slot, ski: string, completed: bool, superseded: bool): Slot {
    if superseded then s else
    match Lookup(s.reg, NormalizeSki(ski), "", "")
    case None => s
    case Some(i) =>
      if !completed && !s.reg[i].trusted then s
      else if s.reg[i].addCu && s.reg[i].shipId != "" then StartTimer(s, s.reg[i].shipId) else s
  }

  /** The trust part of HandleShipHandshakeStateUpdate, for the states that have one. */
  function HandshakeUpdate(s: Slot, ski: string, helloOk: bool, complete: bool): Slot {
    match Lookup(s.reg, NormalizeSki(ski), "", "")
    case None => s
    case Some(i) =>
      var t := if helloOk then s.(reg := s.reg[i := s.reg[i].(trusted := true)]) else s;
      if complete && s.reg[i].addCu && s.reg[i].shipId != "" then StopTimer(t, s.reg[i].shipId) else t
  }

  /** ReportServiceShipID: the entry gains its SHIP ID and is merged with whatever carries it already. */
  function ShipIdReported(s: Slot, ski: string, shipId: string): Slot {
    match Lookup(s.reg, NormalizeSki(ski), "", "")
    case None => s
    case Some(i) =>
      if s.reg[i].shipId != "" then s else
      var e := s.reg[i].(shipId := shipId);
      match Merge(s.reg[i := e], e)
      case Failed => s.(reg := s.reg[i := e])
      case Merged(reg, _) => s.(reg := reg)
  }

  /** RegisterRemoteService: connected says whether a connection is there to be approved. */
  function RegisterService(s: Slot, ski: string, fingerprint: string, shipId: string, ipv4: string, addCu: bool, started: bool,
                           connected: bool): Slot {
    match NewService(ski, fingerprint, shipId)
    case None => s
    case Some(e) =>
      match Merge(s.reg, e.(ipv4 := ipv4, trusted := true, addCu := addCu))
      case Failed => s
      case Merged(reg, m) =>
        if started && !connected && m.trusted && m.addCu && m.shipId != "" then StartTimer(s.(reg := reg), m.shipId)
        else s.(reg := reg)
  }

  /** startAddCuReplacementTimersForOfflineDevices, for the entries before position n; online are the connected ones. */
  function StartTimers(s: Slot, n: nat, online: set<nat>): Slot
    requires n <= |s.reg|
    ensures StartTimers(s, n, online).reg == s.reg
  {
    if n == 0 then s else
    var t := StartTimers(s, n - 1, online);
    var e := s.reg[n - 1];
    if e.addCu && e.trusted && e.shipId != "" && n - 1 !in online then StartTimer(t, e.shipId) else t
  }

  /**
   A candidate is merged: the peer of an incoming connection, or the record that a dial has held on to
   although it is no longer in the registry.
   */
  function AddOther(s: Slot, e: Entry): Slot {
    match Merge(s.reg, e)
    case Failed => s
    case Merged(reg, _) => s.(reg := reg)
  }

  /** CancelPairing: the entry stays, but is no longer trusted; the timer is not touched. */
  function Cancel(s: Slot, ski: string, fingerprint: string, shipId: string): Slot {
    match Lookup(s.reg, NormalizeSki(ski), fingerprint, shipId)
    case None => s
    case Some(i) => s.(reg := s.reg[i := s.reg[i].(trusted := false)])
  }

  /** An entry gains the identifiers it did not have, and is merged with whatever carries them already. */
  function Learn(s: Slot, i: nat, ski: string, fingerprint: string): Slot
    requires i < |s.reg|
  {
    var e := Learned(s.reg[i], ski, fingerprint);
    match Merge(s.reg[i := e], e)
    case Failed => s.(reg := s.reg[i := e])
    case Merged(reg, _) => s.(reg := reg)
  }

  function Learned(e: Entry, ski: string, fingerprint: string): Entry {
    e.(ski := if e.ski == "" then NormalizeSki(ski) else e.ski, fingerprint := Or(e.fingerprint, fingerprint))
  }

  /** serviceForTrustedShipID. */
  function TrustedNamed(reg: seq<Entry>, shipId: string): (r: Option<nat>)
    ensures r.Some? ==> r.value < |reg| && reg[r.value].trusted && reg[r.value].shipId == shipId
    ensures forall i | 0 <= i < (if r.Some? then r.value else |reg|) :: !(reg[i].trusted && reg[i].shipId == shipId)
  {
    if reg == [] then None else
    var r := TrustedNamed(reg[..|reg| - 1], shipId);
    if r.Some? then r
    else if reg[|reg| - 1].trusted && reg[|reg| - 1].shipId == shipId then Some(|reg| - 1) else None
  }

  /** ReportMdnsEntries for a device whose SKI is not known yet; valid says whether the stored fingerprint is well formed. */
  function Discover(s: Slot, ski: string, shipId: string, valid: bool): Slot {
    var at := TrustedNamed(s.reg, shipId);
    if Lookup(s.reg, NormalizeSki(ski), "", "").Some? || shipId == "" || at == None then s
    else if s.reg[at.value].ski != "" || !valid then s
    else Learn(s, at.value, ski, "")
  }

  /** connectFoundService, once the certificate of the device behind an entry is known. */
  function ReadCertificate(s: Slot, i: nat, ski: string, fingerprint: string): Slot
    requires i < |s.reg|
  {
    Learn(s, i, if s.reg[i].fingerprint == fingerprint then ski else "", fingerprint)
  }

  datatype Event =
    | Cancelled(ski: string, fingerprint: string, shipId: string)
    | Discovered(ski: string, shipId: string, valid: bool)
    | Certified(at: nat, ski: string, fingerprint: string)
    | Paired(shipId: string, fingerprint: string, connected: bool)
    | Unregistered(ski: string, fingerprint: string, shipId: string)
    | Closed(ski: string, completed: bool, superseded: bool)
    | Updated(ski: string, helloOk: bool, complete: bool)
    | Reported(ski: string, shipId: string)
    | Added(entry: Entry)
    | Registered(ski: string, fingerprint: string, shipId: string, ipv4: string, addCu: bool, started: bool, connected: bool)
    | HubStarted(online: set<nat>)
    | Expired

  function After(s: Slot, e: Event): Slot {
    match e
    case Paired(ship, fp, connected) => PairingSuccess(s, ship, fp, connected)
    case Unregistered(ski, fp, ship) => Unregister(s, ski, fp, ship)
    case Closed(ski, completed, superseded) => ConnectionClosed(s, ski, completed, superseded)
    case Updated(ski, helloOk, complete) => HandshakeUpdate(s, ski, helloOk, complete)
    case Reported(ski, ship) => ShipIdReported(s, ski, ship)
    case Added(entry) => AddOther(s, entry)
    case Registered(ski, fp, ship, ipv4, addCu, started, connected) =>
      RegisterService(s, ski, fp, ship, ipv4, addCu, started, connected)
    case HubStarted(online) => StartTimers(s, |s.reg|, online)
    case Cancelled(ski, fp, ship) => Cancel(s, ski, fp, ship)
    case Discovered(ski, ship, valid) => Discover(s, ski, ship, valid)
    case Certified(i, ski, fp) => if i < |s.reg| then ReadCertificate(s, i, ski, fp) else s
    case Expired => s.(tracked := "", armed := false)
  }

  // ---------------------------------------------------------------- the invariant

  /** SHIP IDs that differ, differ in more than upper and lower case. */
  predicate SpelledAlike(ids: set<string>) {
    forall a, b | a in ids && b in ids && EqualFold(a, b) :: a == b
  }

  function ShipIdsOf(reg: seq<Entry>): set<string> {
    set i | 0 <= i < |reg| :: reg[i].shipId
  }

  predicate OneAddCu(reg: seq<Entry>) {
    && (forall i, j | 0 <= i < |reg| && 0 <= j < |reg| && reg[i].addCu && reg[j].addCu :: i == j)
    && (forall i | 0 <= i < |reg| && reg[i].addCu :: Holds(reg[i]))
  }

  predicate HeldBy(reg: seq<Entry>, shipId: string) {
    exists i | 0 <= i < |reg| :: reg[i].addCu && reg[i].shipId == shipId
  }

  /** At most one control unit, trusted and complete; an armed timer is that of the one there is. */
  predicate SlotOk(s: Slot) {
    AllNormal(s.reg) && OneAddCu(s.reg) && (s.armed ==> HeldBy(s.reg, s.tracked))
  }

  /** The SHIP ID an event brings in. */
  function Brings(e: Event): set<string> {
    match e
    case Paired(ship, _, _) => {ship}
    case Reported(_, ship) => {ship}
    case Added(entry) => {entry.shipId}
    case Registered(_, _, ship, _, _, _, _) => {ship}
    case _ => {}
  }

  /** A cancellation that finds the control unit. */
  predicate CancelsAddCu(s: Slot, e: Event) {
    && e.Cancelled?
    && var found := Lookup(s.reg, NormalizeSki(e.ski), e.fingerprint, e.shipId); found.Some? && s.reg[found.value].addCu
  }

  /** The candidate an event merges as it comes. */
  function Candidate(e: Event): Option<Entry> {
    match e
    case Added(entry) => Some(entry)
    case Registered(ski, fp, ship, ipv4, addCu, _, _) =>
      var n := NewService(ski, fp, ship);
      if n == None then None else Some(n.value.(ipv4 := ipv4, trusted := true, addCu := addCu))
    case _ => None
  }

  /** A control unit is merged that does not suit the registry. */
  predicate Crowds(s: Slot, e: Event) {
    var cand := Candidate(e);
    cand.Some? && Merge(s.reg, cand.value) != Failed && !Suits(s.reg, cand.value)
  }

  /** What the input of an event looks like. */
  predicate WellFormed(s: Slot, e: Event) {
    SpelledAlike(ShipIdsOf(s.reg) + Brings(e)) && (e.Added? ==> Normal(e.entry))
  }

  predicate EventOk(s: Slot, e: Event) {
    WellFormed(s, e) && !CancelsAddCu(s, e) && !Crowds(s, e)
  }

  // ---------------------------------------------------------------- merging keeps the slot

  lemma HolderUnique(reg: seq<Entry>, i: nat)
    requires OneAddCu(reg) && i < |reg| && reg[i].addCu
    ensures TrustedAddCu(reg) == Some(i)
  {
  }

  /** The merged entry of a candidate, seen from one of its parties that is a control unit. */
  lemma MergedAddCu(reg: seq<Entry>, cand: Entry, p: Entry)
    requires AllNormal(reg) && Normal(cand) && Merge(reg, cand) != Failed && p in PartySet(reg, cand) && Holds(p)
    requires SpelledAlike(ShipIdsOf(reg) + {cand.shipId})
    ensures Holds(Merge(reg, cand).entry) && Merge(reg, cand).entry.shipId == p.shipId
  {
    var e := Merge(reg, cand).entry;
    MergeKeeps(reg, cand);
    MergeFails(reg, cand);
    hide Merge, Parties, Upper;
    var s := PartySet(reg, cand);
    assert Trusts(p) && IsAddCu(p) && RawPrintOf(p) == p.fingerprint && ShipOf(p) == p.shipId;
    var q :| q in s && ShipOf(q) == e.shipId;
    PartyShipIds(reg, cand, p);
    PartyShipIds(reg, cand, q);
    AgreeingParties(Parties(reg, cand), p, q);
  }

  lemma PartyShipIds(reg: seq<Entry>, cand: Entry, p: Entry)
    requires p in PartySet(reg, cand)
    ensures p.shipId in ShipIdsOf(reg) + {cand.shipId}
  {
  }

  lemma AgreeingParties(ps: seq<Entry>, p: Entry, q: Entry)
    requires !Conflicting(ps) && p in ps && q in ps && p.shipId != "" && q.shipId != ""
    ensures EqualFold(p.shipId, q.shipId)
  {
  }

  lemma MergedIsAddCu(reg: seq<Entry>, cand: Entry)
    requires AllNormal(reg) && Normal(cand) && Merge(reg, cand) != Failed
    ensures Merge(reg, cand).entry.addCu <==> exists p | p in PartySet(reg, cand) :: p.addCu
  {
    MergeKeeps(reg, cand);
    assert forall p :: IsAddCu(p) == p.addCu;
  }

  /** Some of the entries is trusted, some has a SHIP ID and some a fingerprint. */
  predicate CompleteTogether(ps: set<Entry>) {
    (exists p | p in ps :: p.trusted) && (exists p | p in ps :: p.shipId != "") && (exists p | p in ps :: p.fingerprint != "")
  }

  /** A candidate that is a control unit matches every control unit there is, and is complete with its matches. */
  predicate Suits(reg: seq<Entry>, cand: Entry) {
    cand.addCu ==>
      && (forall i | 0 <= i < |reg| && reg[i].addCu :: Share(cand, reg[i]))
      && CompleteTogether(PartySet(reg, cand))
  }

  predicate Fits(reg: seq<Entry>, cand: Entry) {
    && AllNormal(reg) && Normal(cand) && OneAddCu(reg) && Suits(reg, cand)
    && SpelledAlike(ShipIdsOf(reg) + {cand.shipId})
  }

  lemma HoldsSuits(reg: seq<Entry>, cand: Entry)
    requires Holds(cand)
    ensures CompleteTogether(PartySet(reg, cand))
  {
    PartySetContents(reg, cand);
    hide PartySet;
    assert cand in PartySet(reg, cand);
  }

  /** The merged entry is complete exactly when its parties are so together. */
  lemma MergedComplete(reg: seq<Entry>, cand: Entry)
    requires AllNormal(reg) && Normal(cand) && Merge(reg, cand) != Failed
    ensures var e := Merge(reg, cand).entry;
            e.trusted && e.shipId != "" && e.fingerprint != "" <==> CompleteTogether(PartySet(reg, cand))
  {
    MergeKeeps(reg, cand);
    hide Merge, PartySet;
    assert forall p :: Trusts(p) == p.trusted && ShipOf(p) == p.shipId && RawPrintOf(p) == p.fingerprint;
  }

  lemma PartyHolds(reg: seq<Entry>, cand: Entry, p: Entry)
    requires OneAddCu(reg) && !cand.addCu && p in PartySet(reg, cand) && p.addCu
    ensures Holds(p)
  {
  }

  lemma MergedHolds(reg: seq<Entry>, cand: Entry)
    requires Fits(reg, cand) && Merge(reg, cand) != Failed && Merge(reg, cand).entry.addCu
    ensures Holds(Merge(reg, cand).entry)
    ensures forall b | 0 <= b < |reg| && !Share(cand, reg[b]) :: !reg[b].addCu
  {
    hide Merge, Matches, Share, SpelledAlike, Normal, PartySet, CompleteTogether;
    MergedIsAddCu(reg, cand);
    if cand.addCu {
      MergedComplete(reg, cand);
    } else {
      var p :| p in PartySet(reg, cand) && p.addCu;
      PartyHolds(reg, cand, p);
      MergedAddCu(reg, cand, p);
      forall b | 0 <= b < |reg| && !Share(cand, reg[b]) ensures !reg[b].addCu { NoOtherAddCu(reg, cand, p, b); }
    }
  }

  /** A registry of old entries and one new one, of which only the new one may be a control unit if it is. */
  lemma OneOf(reg: seq<Entry>, out: seq<Entry>, ks: seq<nat>, h: nat, e: Entry)
    requires OneAddCu(reg) && |out| == |ks| && forall j, k | 0 <= j < k < |ks| :: ks[j] < ks[k]
    requires forall k | 0 <= k < |ks| && ks[k] == h :: out[k] == e
    requires forall k | 0 <= k < |ks| && ks[k] != h :: ks[k] < |reg| && out[k] == reg[ks[k]]
    requires e.addCu ==> Holds(e) && forall k | 0 <= k < |ks| && ks[k] != h :: !reg[ks[k]].addCu
    ensures OneAddCu(out)
  {
  }

  lemma MergeOneAddCu(reg: seq<Entry>, cand: Entry)
    requires Fits(reg, cand) && Merge(reg, cand) != Failed
    ensures OneAddCu(Merge(reg, cand).registry)
  {
    var t := Merge(reg, cand);
    assert OneAddCu(reg);
    hide *;
    if t.entry.addCu { MergedHolds(reg, cand); }
    MergeShape(reg, cand);
    OneOf(reg, t.registry, Slots(reg, cand), Home(reg, cand), t.entry);
  }

  lemma MergeNormal(reg: seq<Entry>, cand: Entry)
    requires AllNormal(reg) && Normal(cand) && Merge(reg, cand) != Failed
    ensures AllNormal(Merge(reg, cand).registry)
  {
    MergeShape(reg, cand);
    MergeKeeps(reg, cand);
    hide Merge, Slots, Home, Matches, Share, SumOf, Normal;
  }

  lemma MergeSlot(reg: seq<Entry>, cand: Entry)
    requires Fits(reg, cand) && Merge(reg, cand) != Failed
    ensures AllNormal(Merge(reg, cand).registry) && OneAddCu(Merge(reg, cand).registry)
    ensures forall id | HeldBy(reg, id) || (cand.addCu && Holds(cand) && id == cand.shipId) :: HeldBy(Merge(reg, cand).registry, id)
    ensures Merge(reg, cand).entry.addCu ==> HeldBy(Merge(reg, cand).registry, Merge(reg, cand).entry.shipId)
  {
    MergeOneAddCu(reg, cand);
    MergeNormal(reg, cand);
    MergedIsThere(reg, cand);
    hide HeldBy;
    forall id | HeldBy(reg, id) || (cand.addCu && Holds(cand) && id == cand.shipId) ensures HeldBy(Merge(reg, cand).registry, id) {
      HolderStays(reg, cand, id);
    }
  }

  lemma MergedIsThere(reg: seq<Entry>, cand: Entry)
    requires Merge(reg, cand) != Failed
    ensures Merge(reg, cand).entry.addCu ==> HeldBy(Merge(reg, cand).registry, Merge(reg, cand).entry.shipId)
  {
    MergeShape(reg, cand);
    hide Merge, Slots, Home;
    var q := SlotAt(reg, cand, Home(reg, cand));
    assert Merge(reg, cand).registry[q] == Merge(reg, cand).entry;
  }

  /**
   A merge leaves at most one control unit, trusted and complete, if and only if the candidate suits: a
   control unit may only come in with the one there is, and complete.
   */
  lemma MergeExact(reg: seq<Entry>, cand: Entry)
    requires AllNormal(reg) && Normal(cand) && OneAddCu(reg) && SpelledAlike(ShipIdsOf(reg) + {cand.shipId})
    requires Merge(reg, cand) != Failed
    ensures OneAddCu(Merge(reg, cand).registry) <==> Suits(reg, cand)
  {
    if Suits(reg, cand) {
      MergeOneAddCu(reg, cand);
    } else {
      UnsuitedBreaks(reg, cand);
    }
  }

  lemma UnsuitedBreaks(reg: seq<Entry>, cand: Entry)
    requires AllNormal(reg) && Normal(cand) && Merge(reg, cand) != Failed && !Suits(reg, cand)
    ensures !OneAddCu(Merge(reg, cand).registry)
  {
    var t := Merge(reg, cand);
    MergedIsAddCu(reg, cand);
    PartySetContents(reg, cand);
    assert cand in PartySet(reg, cand) && t.entry.addCu;
    MergeShape(reg, cand);
    MergedComplete(reg, cand);
    HomeShares(reg, cand);
    hide Merge, Slots, Home, Share, PartySet, CompleteTogether, AllNormal;
    var q := SlotAt(reg, cand, Home(reg, cand));
    assert t.registry[q] == t.entry;
    if CompleteTogether(PartySet(reg, cand)) {
      var i :| 0 <= i < |reg| && reg[i].addCu && !Share(cand, reg[i]);
      var k := SlotAt(reg, cand, i);
      assert t.registry[k] == reg[i] && k != q;
    }
  }

  lemma NoOtherAddCu(reg: seq<Entry>, cand: Entry, p: Entry, b: nat)
    requires OneAddCu(reg) && p in PartySet(reg, cand) && p.addCu && b < |reg| && !Share(cand, reg[b])
    requires cand.addCu ==> forall i | 0 <= i < |reg| && reg[i].addCu :: Share(cand, reg[i])
    ensures !reg[b].addCu
  {
  }

  lemma HolderStays(reg: seq<Entry>, cand: Entry, id: string)
    requires AllNormal(reg) && Normal(cand) && Merge(reg, cand) != Failed && OneAddCu(reg)
    requires SpelledAlike(ShipIdsOf(reg) + {cand.shipId})
    requires HeldBy(reg, id) || (cand.addCu && Holds(cand) && id == cand.shipId)
    ensures HeldBy(Merge(reg, cand).registry, id)
  {
    var t := Merge(reg, cand);
    var ks := Slots(reg, cand);
    MergeShape(reg, cand);
    PartySetContents(reg, cand);
    hide Merge, Slots, Home, Matches, SumOf, Share, SpelledAlike, Normal, PartySet;
    var q := SlotAt(reg, cand, Home(reg, cand));
    assert t.registry[q] == t.entry;
    if cand.addCu && Holds(cand) && id == cand.shipId {
      MergedAddCu(reg, cand, cand);
    } else {
      var i :| 0 <= i < |reg| && reg[i].addCu && reg[i].shipId == id;
      if Share(cand, reg[i]) {
        MatchesAll(reg, cand, i);
        assert reg[i] in PartySet(reg, cand);
        MergedAddCu(reg, cand, reg[i]);
      } else {
        var k := SlotAt(reg, cand, i);
        if i == Home(reg, cand) { HomeShares(reg, cand); }
        assert t.registry[k] == reg[i];
      }
    }
  }

  lemma HomeShares(reg: seq<Entry>, cand: Entry)
    ensures Home(reg, cand) < |reg| ==> Share(cand, reg[Home(reg, cand)])
  {
  }

  // ---------------------------------------------------------------- every event keeps the slot

  lemma RemovedOk(reg: seq<Entry>, i: nat)
    requires AllNormal(reg) && OneAddCu(reg) && i < |reg|
    ensures AllNormal(RemoveAt(reg, i)) && OneAddCu(RemoveAt(reg, i)) && ShipIdsOf(RemoveAt(reg, i)) <= ShipIdsOf(reg)
    ensures forall id | HeldBy(reg, id) && !(reg[i].addCu && reg[i].shipId == id) :: HeldBy(RemoveAt(reg, i), id)
    ensures reg[i].addCu ==> forall j | 0 <= j < |RemoveAt(reg, i)| :: !RemoveAt(reg, i)[j].addCu
  {
    var r := RemoveAt(reg, i);
    hide Normal, Holds;
    assert forall j | 0 <= j < |r| :: r[j] == reg[if j < i then j else j + 1];
    forall id | HeldBy(reg, id) && !(reg[i].addCu && reg[i].shipId == id) ensures HeldBy(r, id) {
      var k :| 0 <= k < |reg| && reg[k].addCu && reg[k].shipId == id;
      assert r[if k < i then k else k - 1] == reg[k];
    }
  }

  lemma EvictOk(s: Slot, i: nat)
    requires SlotOk(s) && i < |s.reg|
    ensures SlotOk(Evict(s, i)) && ShipIdsOf(Evict(s, i).reg) <= ShipIdsOf(s.reg)
    ensures s.reg[i].addCu ==> forall j | 0 <= j < |Evict(s, i).reg| :: !Evict(s, i).reg[j].addCu
  {
    RemovedOk(s.reg, i);
    hide AllNormal, OneAddCu, ShipIdsOf;
  }

  lemma TrustOk(s: Slot, shipId: string, fingerprint: string, connected: bool)
    requires SlotOk(s) && SpelledAlike(ShipIdsOf(s.reg) + {shipId}) && TrimSpace(fingerprint) != ""
    requires forall i | 0 <= i < |s.reg| && s.reg[i].addCu :: s.reg[i].fingerprint == fingerprint
    ensures SlotOk(Trust(s, shipId, fingerprint, connected))
  {
    var n := NewService("", fingerprint, shipId);
    if n.Some? {
      var e := n.value.(trusted := true, addCu := true);
      assert |Upper(fingerprint)| == |fingerprint| > 0;
      assert Holds(e) && Normal(e);
      HoldsSuits(s.reg, e);
      assert Fits(s.reg, e);
      hide AllNormal, OneAddCu, ShipIdsOf, Merge, Fits, HeldBy;
      if Merge(s.reg, e) != Failed { MergeSlot(s.reg, e); }
    }
  }

  lemma PairingSuccessOk(s: Slot, shipId: string, fingerprint: string, connected: bool)
    requires SlotOk(s) && SpelledAlike(ShipIdsOf(s.reg) + {shipId})
    ensures SlotOk(PairingSuccess(s, shipId, fingerprint, connected))
  {
    var prior := Replaced(s, fingerprint);
    forall i | 0 <= i < |s.reg| && s.reg[i].addCu ensures TrustedAddCu(s.reg) == Some(i) { HolderUnique(s.reg, i); }
    hide SlotOk, Trust, TrimSpace, InReplacementWindow, ShipIdsOf;
    if TrimSpace(fingerprint) == "" {
    } else if prior == None {
      TrustOk(s, shipId, fingerprint, connected);
    } else if !InReplacementWindow(s) {
      EvictOk(s, prior.value);
      var t := Evict(s, prior.value);
      assert ShipIdsOf(t.reg) + {shipId} <= ShipIdsOf(s.reg) + {shipId};
      TrustOk(t, shipId, fingerprint, connected);
    }
  }

  lemma ShipIdReportedOk(s: Slot, ski: string, shipId: string)
    requires SlotOk(s) && SpelledAlike(ShipIdsOf(s.reg) + {shipId})
    ensures SlotOk(ShipIdReported(s, ski, shipId))
  {
    var found := Lookup(s.reg, NormalizeSki(ski), "", "");
    if found.Some? && s.reg[found.value].shipId == "" {
      var i := found.value;
      var e := s.reg[i].(shipId := shipId);
      var reg := s.reg[i := e];
      NamedOk(s.reg, i, shipId);
      assert ShipIdsOf(reg) + {e.shipId} <= ShipIdsOf(s.reg) + {shipId};
      assert Fits(reg, e);
      hide AllNormal, OneAddCu, ShipIdsOf, Merge, Fits, HeldBy, Lookup;
      if Merge(reg, e) != Failed { MergeSlot(reg, e); }
    }
  }

  /** Giving a SHIP ID to an entry without one does not touch the control unit. */
  lemma NamedOk(reg: seq<Entry>, i: nat, shipId: string)
    requires AllNormal(reg) && OneAddCu(reg) && i < |reg| && reg[i].shipId == ""
    ensures var r := reg[i := reg[i].(shipId := shipId)];
            AllNormal(r) && OneAddCu(r) && !r[i].addCu && forall id | HeldBy(reg, id) :: HeldBy(r, id)
  {
    var r := reg[i := reg[i].(shipId := shipId)];
    assert !reg[i].addCu;
    forall id | HeldBy(reg, id) ensures HeldBy(r, id) {
      var k :| 0 <= k < |reg| && reg[k].addCu && reg[k].shipId == id;
      assert r[k] == reg[k];
    }
  }

  lemma HandshakeUpdateOk(s: Slot, ski: string, helloOk: bool, complete: bool)
    requires SlotOk(s)
    ensures SlotOk(HandshakeUpdate(s, ski, helloOk, complete))
  {
    var found := Lookup(s.reg, NormalizeSki(ski), "", "");
    if found.Some? {
      var i := found.value;
      var r := s.reg[i := s.reg[i].(trusted := true)];
      forall id | HeldBy(s.reg, id) ensures HeldBy(r, id) {
        var k :| 0 <= k < |s.reg| && s.reg[k].addCu && s.reg[k].shipId == id;
        assert r[k].addCu && r[k].shipId == id;
      }
      hide Lookup;
    }
  }

  /** Every event keeps the slot, if and only if it neither cancels the control unit nor crowds it with another one. */
  lemma EventExact(s: Slot, e: Event)
    requires SlotOk(s) && WellFormed(s, e)
    ensures SlotOk(After(s, e)) <==> !CancelsAddCu(s, e) && !Crowds(s, e)
  {
    if EventOk(s, e) { EventKeeps(s, e); }
    hide SlotOk, EventOk, Cancel, RegisterService, AddOther, Lookup, SpelledAlike, ShipIdsOf;
    match e
    case Cancelled(ski, fp, ship) => CancelExact(s, ski, fp, ship);
    case Added(entry) => assert EventOk(s, e) <==> !Crowds(s, e); AddedExact(s, entry);
    case Registered(_, _, _, _, _, _, _) => RegisteredExact(s, e);
    case _ =>
  }

  lemma EventKeeps(s: Slot, e: Event)
    requires SlotOk(s) && EventOk(s, e)
    ensures SlotOk(After(s, e))
  {
    assert ShipIdsOf(s.reg) + {} == ShipIdsOf(s.reg);
    hide SlotOk, PairingSuccess, ShipIdReported, HandshakeUpdate, Cancel, Discover, Learn, SpelledAlike, ShipIdsOf, Lookup;
    match e
    case Paired(ship, fp, connected) => PairingSuccessOk(s, ship, fp, connected);
    case Reported(ski, ship) => ShipIdReportedOk(s, ski, ship);
    case Updated(ski, helloOk, complete) => HandshakeUpdateOk(s, ski, helloOk, complete);
    case Added(entry) => AddedExact(s, entry);
    case Registered(_, _, _, _, _, _, _) => RegisteredExact(s, e);
    case HubStarted(online) => StartTimersOk(s, |s.reg|, online);
    case Unregistered(ski, fp, ship) => UnregisterOk(s, ski, fp, ship);
    case Closed(ski, completed, superseded) => ClosedOk(s, ski, completed, superseded);
    case Expired => ExpiredOk(s);
    case Cancelled(ski, fp, ship) => CancelExact(s, ski, fp, ship);
    case Discovered(ski, ship, valid) => DiscoverOk(s, ski, ship, valid);
    case Certified(i, ski, fp) =>
      if i < |s.reg| { LearnOk(s, i, if s.reg[i].fingerprint == fp then ski else "", fp); }
  }

  /** Giving an entry identifiers it did not have does not touch the control unit. */
  lemma LearnedOk(reg: seq<Entry>, i: nat, ski: string, fingerprint: string)
    requires AllNormal(reg) && OneAddCu(reg) && i < |reg|
    ensures var r := reg[i := Learned(reg[i], ski, fingerprint)];
            AllNormal(r) && OneAddCu(r) && ShipIdsOf(r) == ShipIdsOf(reg) && forall id | HeldBy(reg, id) :: HeldBy(r, id)
  {
    var r := reg[i := Learned(reg[i], ski, fingerprint)];
    assert r[i].shipId == reg[i].shipId && r[i].addCu == reg[i].addCu;
    assert forall k | 0 <= k < |reg| :: r[k].shipId == reg[k].shipId && r[k].addCu == reg[k].addCu;
    forall id | HeldBy(reg, id) ensures HeldBy(r, id) {
      var k :| 0 <= k < |reg| && reg[k].addCu && reg[k].shipId == id;
      assert r[k].addCu && r[k].shipId == id;
    }
    SameShipIds(reg, r);
    hide NormalSki;
  }

  lemma SameShipIds(a: seq<Entry>, b: seq<Entry>)
    requires |a| == |b| && forall k | 0 <= k < |a| :: a[k].shipId == b[k].shipId
    ensures ShipIdsOf(a) == ShipIdsOf(b)
  {
    forall x | x in ShipIdsOf(a) ensures x in ShipIdsOf(b) {
      var k :| 0 <= k < |a| && a[k].shipId == x;
      assert b[k].shipId == x;
    }
    forall x | x in ShipIdsOf(b) ensures x in ShipIdsOf(a) {
      var k :| 0 <= k < |b| && b[k].shipId == x;
      assert a[k].shipId == x;
    }
  }

  lemma LearnOk(s: Slot, i: nat, ski: string, fingerprint: string)
    requires SlotOk(s) && i < |s.reg| && SpelledAlike(ShipIdsOf(s.reg))
    ensures SlotOk(Learn(s, i, ski, fingerprint))
  {
    var e := Learned(s.reg[i], ski, fingerprint);
    var reg := s.reg[i := e];
    LearnedOk(s.reg, i, ski, fingerprint);
    assert reg[i] == e && e.shipId in ShipIdsOf(reg);
    assert ShipIdsOf(reg) + {e.shipId} == ShipIdsOf(s.reg);
    if e.addCu { HoldsSuits(reg, e); }
    assert Fits(reg, e);
    hide AllNormal, OneAddCu, ShipIdsOf, Merge, Fits, HeldBy;
    if Merge(reg, e) != Failed { MergeSlot(reg, e); }
  }

  lemma DiscoverOk(s: Slot, ski: string, shipId: string, valid: bool)
    requires SlotOk(s) && SpelledAlike(ShipIdsOf(s.reg))
    ensures SlotOk(Discover(s, ski, shipId, valid))
  {
    var at := TrustedNamed(s.reg, shipId);
    hide SlotOk, Learn, Lookup, ShipIdsOf, SpelledAlike, TrustedNamed;
    if at.Some? { LearnOk(s, at.value, ski, ""); }
  }

  /**
   A cancellation keeps the slot if and only if the entry it finds is no control unit; and while the timer
   is armed, exactly then there still is a device for the window to protect.
   */
  lemma CancelExact(s: Slot, ski: string, fingerprint: string, shipId: string)
    requires SlotOk(s)
    ensures SlotOk(Cancel(s, ski, fingerprint, shipId)) <==> !CancelsAddCu(s, Cancelled(ski, fingerprint, shipId))
    ensures s.armed ==>
              (TrustedAddCu(Cancel(s, ski, fingerprint, shipId).reg).Some?
               <==> !CancelsAddCu(s, Cancelled(ski, fingerprint, shipId)))
  {
    var found := Lookup(s.reg, NormalizeSki(ski), fingerprint, shipId);
    var r := Cancel(s, ski, fingerprint, shipId).reg;
    if found.Some? {
      var i := found.value;
      hide Lookup;
      CancelEntry(s.reg, i);
      forall id | HeldBy(s.reg, id) ensures HeldBy(r, id) {
        var k :| 0 <= k < |s.reg| && s.reg[k].addCu && s.reg[k].shipId == id;
        assert r[k].addCu && r[k].shipId == id;
      }
    } else if s.armed {
      var k :| 0 <= k < |s.reg| && s.reg[k].addCu && s.reg[k].shipId == s.tracked;
    }
  }

  lemma CancelEntry(reg: seq<Entry>, i: nat)
    requires AllNormal(reg) && OneAddCu(reg) && i < |reg|
    ensures var r := reg[i := reg[i].(trusted := false)];
            && AllNormal(r) && (OneAddCu(r) <==> !reg[i].addCu)
            && (reg[i].addCu ==> TrustedAddCu(r) == None)
            && (!reg[i].addCu ==> forall k | 0 <= k < |reg| && reg[k].addCu :: TrustedAddCu(r).Some?)
  {
    var r := reg[i := reg[i].(trusted := false)];
    assert r[i].addCu == reg[i].addCu && !Holds(r[i]);
    if reg[i].addCu {
      forall k | 0 <= k < |r| ensures !Holds(r[k]) { if k != i { assert r[k] == reg[k] && !reg[k].addCu; } }
    } else {
      forall k | 0 <= k < |reg| && reg[k].addCu ensures TrustedAddCu(r).Some? { assert r[k] == reg[k] && Holds(r[k]); }
    }
    hide NormalSki;
  }

  /** Merging a candidate keeps the slot if and only if it is refused or suits. */
  lemma AddedExact(s: Slot, cand: Entry)
    requires SlotOk(s) && Normal(cand) && SpelledAlike(ShipIdsOf(s.reg) + {cand.shipId})
    ensures SlotOk(AddOther(s, cand)) <==> Merge(s.reg, cand) == Failed || Suits(s.reg, cand)
    ensures Holds(cand) ==>
              (Suits(s.reg, cand) <==> cand.addCu ==> forall i | 0 <= i < |s.reg| && s.reg[i].addCu :: Share(cand, s.reg[i]))
  {
    if Holds(cand) { HoldsSuits(s.reg, cand); }
    hide AllNormal, OneAddCu, ShipIdsOf, SpelledAlike, Merge, HeldBy, CompleteTogether;
    if Merge(s.reg, cand) != Failed {
      MergeExact(s.reg, cand);
      if Suits(s.reg, cand) { MergeSlot(s.reg, cand); }
    }
  }

  lemma RegisteredExact(s: Slot, e: Event)
    requires SlotOk(s) && e.Registered? && WellFormed(s, e)
    ensures SlotOk(After(s, e)) <==> !Crowds(s, e)
  {
    var n := NewService(e.ski, e.fingerprint, e.shipId);
    if n.Some? {
      var cand := n.value.(ipv4 := e.ipv4, trusted := true, addCu := e.addCu);
      assert Normal(cand) && cand.shipId == e.shipId;
      hide AllNormal, OneAddCu, ShipIdsOf, SpelledAlike, Merge, HeldBy, Suits;
      if Merge(s.reg, cand) != Failed {
        MergeExact(s.reg, cand);
        if Suits(s.reg, cand) { MergeSlot(s.reg, cand); }
      }
    }
  }

  lemma {:induction false} StartTimersOk(s: Slot, n: nat, online: set<nat>)
    requires SlotOk(s) && n <= |s.reg|
    ensures SlotOk(StartTimers(s, n, online))
  {
    if n > 0 {
      StartTimersOk(s, n - 1, online);
      assert s.reg[n - 1].addCu ==> HeldBy(s.reg, s.reg[n - 1].shipId);
    }
  }

  lemma UnregisterOk(s: Slot, ski: string, fingerprint: string, shipId: string)
    requires SlotOk(s)
    ensures SlotOk(Unregister(s, ski, fingerprint, shipId))
  {
    var found := Lookup(s.reg, NormalizeSki(ski), fingerprint, shipId);
    if found.Some? {
      EvictOk(s, found.value);
      RemovedOk(s.reg, found.value);
    }
    hide AllNormal, OneAddCu, ShipIdsOf, HeldBy, Lookup, RemoveAt, Evict;
  }

  lemma ClosedOk(s: Slot, ski: string, completed: bool, superseded: bool)
    requires SlotOk(s)
    ensures SlotOk(ConnectionClosed(s, ski, completed, superseded))
  {
  }

  lemma ExpiredOk(s: Slot)
    requires SlotOk(s)
    ensures SlotOk(After(s, Expired))
  {
  }

  // ---------------------------------------------------------------- whole runs

  predicate EventsOk(s: Slot, es: seq<Event>)
    decreases |es|
  {
    es == [] || (EventOk(s, es[0]) && EventsOk(After(s, es[0]), es[1..]))
  }

  function AfterAll(s: Slot, es: seq<Event>): Slot
    decreases |es|
  {
    if es == [] then s else AfterAll(After(s, es[0]), es[1..])
  }

  /** Over any run there is at most one control unit, it is trusted, and an armed timer is its own. */
  lemma {:induction false} RunKeepsSlot(s: Slot, es: seq<Event>)
    requires SlotOk(s) && EventsOk(s, es)
    ensures SlotOk(AfterAll(s, es))
    decreases |es|
  {
    hide SlotOk, EventOk, After;
    if es != [] {
      EventKeeps(s, es[0]);
      RunKeepsSlot(After(s, es[0]), es[1..]);
    }
  }

  /** While the timer is armed, a request from any other certificate changes nothing, at any point of a run. */
  lemma WindowProtects(s: Slot, es: seq<Event>, shipId: string, fingerprint: string, connected: bool)
    requires SlotOk(s) && EventsOk(s, es) && AfterAll(s, es).armed
    ensures var t := AfterAll(s, es);
            var held := TrustedAddCu(t.reg);
            && held.Some? && t.reg[held.value].shipId == t.tracked
            && (t.reg[held.value].fingerprint != fingerprint ==> PairingSuccess(t, shipId, fingerprint, connected) == t)
  {
    RunKeepsSlot(s, es);
    var t := AfterAll(s, es);
    var i :| 0 <= i < |t.reg| && t.reg[i].addCu && t.reg[i].shipId == t.tracked;
    HolderUnique(t.reg, i);
    assert Holds(t.reg[i]);
  }

  // ---------------------------------------------------------------- cancelling the pairing of the control unit

  function Device(ski: string, fingerprint: string, shipId: string): Entry {
    Entry(ski, fingerprint, shipId, "", true, false, true)
  }

  lemma MergeApart(e: Entry, cand: Entry)
    requires Identified(cand) && !Share(cand, e)
    ensures Merge([], cand) == Merged([cand], cand) && Merge([e], cand) == Merged([e, cand], cand)
  {
    assert [e][..0] == [];
    assert Matches([e], cand) == [];
    assert [e] + [cand] == [e, cand];
  }

  /**
   The control unit is paired, its connection closes, its pairing is cancelled; now another one is accepted
   although the timer is armed, and when the first one connects again there are two.
   */
  lemma CancelOpensWindow()
    ensures var a, b := Device("a", "F1", "A"), Device("", "F2", "B");
            var s := Slot([a], "A", true);
            && SlotOk(s) && CancelsAddCu(s, Cancelled("a", "", ""))
            && AfterAll(s, [Cancelled("a", "", ""), Paired("B", "F2", false)]).reg == [a.(trusted := false), b]
            && AfterAll(s, [Cancelled("a", "", ""), Paired("B", "F2", false), Updated("a", true, false)]).reg == [a, b]
            && !OneAddCu([a, b])
  {
    var a, b := Device("a", "F1", "A"), Device("", "F2", "B");
    var s := Slot([a], "A", true);
    var c, p, u := Cancelled("a", "", ""), Paired("B", "F2", false), Updated("a", true, false);
    HeldByFirst(a);
    var s1, s2 := Slot([a.(trusted := false)], "A", true), Slot([a.(trusted := false), b], "B", true);
    CancelsFirst(a);
    PairsSecond(a.(trusted := false), b);
    assert After(s1, p) == s2;
    TrustsFirst(a, b);
    hide After, SlotOk, OneAddCu, CancelsAddCu, Lookup;
    ThreeEvents(s, c, p, u);
    TwoAddCu(a, b);
  }

  lemma OneEvent(s: Slot, e: Event)
    ensures AfterAll(s, [e]) == After(s, e)
  {
    assert [e][1..] == [];
  }

  lemma ThreeEvents(s: Slot, c: Event, d: Event, e: Event)
    ensures AfterAll(s, [c, d]) == After(After(s, c), d)
    ensures AfterAll(s, [c, d, e]) == After(After(After(s, c), d), e)
  {
    hide After;
    OneEvent(After(s, c), d);
    OneEvent(After(After(s, c), d), e);
    assert [c, d][1..] == [d] && [c, d, e][1..] == [d, e] && [d, e][1..] == [e];
    assert AfterAll(After(s, c), [d, e]) == AfterAll(After(After(s, c), d), [e]);
  }

  lemma TwoAddCu(a: Entry, b: Entry)
    requires a.addCu && b.addCu
    ensures !OneAddCu([a, b])
  {
    assert [a, b][0].addCu && [a, b][1].addCu;
  }

  lemma HeldByFirst(a: Entry)
    requires Normal(a) && Holds(a)
    ensures SlotOk(Slot([a], a.shipId, true))
  {
    assert [a][0] == a;
  }

  lemma FindsFirst(e: Entry, rest: seq<Entry>)
    requires e.ski == "a" && |rest| <= 1 && forall k | 0 <= k < |rest| :: rest[k].ski == ""
    ensures Lookup([e] + rest, "a", "", "") == Some(0)
  {
    assert Upper("") == "";
    var r := Lookup([e] + rest, "a", "", "");
    assert Answers(([e] + rest)[0], "a", "", "");
    if rest != [] { assert !Answers(([e] + rest)[1], "a", "", ""); }
  }

  lemma CancelsFirst(a: Entry)
    requires a == Device("a", "F1", "A")
    ensures var s := Slot([a], "A", true);
            After(s, Cancelled("a", "", "")) == s.(reg := [a.(trusted := false)]) && CancelsAddCu(s, Cancelled("a", "", ""))
  {
    NormalizeKeeps("a");
    FindsFirst(a, []);
    assert [a] + [] == [a];
    hide Lookup;
  }

  lemma TrustsFirst(a: Entry, b: Entry)
    requires a == Device("a", "F1", "A") && b.ski == ""
    ensures After(Slot([a.(trusted := false), b], "B", true), Updated("a", true, false)).reg == [a, b]
  {
    NormalizeKeeps("a");
    FindsFirst(a.(trusted := false), [b]);
    assert [a.(trusted := false)] + [b] == [a.(trusted := false), b];
    hide Lookup;
  }

  lemma PairsSecond(e: Entry, b: Entry)
    requires e.ski == "a" && e.fingerprint == "F1" && e.shipId == "A" && !e.trusted && b == Device("", "F2", "B")
    ensures PairingSuccess(Slot([e], "A", true), "B", "F2", false) == Slot([e, b], "B", true)
  {
    assert Upper("F1")[1] == '1' && Upper("F2")[1] == '2';
    MergeApart(e, b);
    assert TrustedAddCu([e]) == None;
    assert TrimSpace("F2") == "F2";
    hide Merge, TrustedAddCu, TrimSpace;
  }

  // ---------------------------------------------------------------- a second control unit

  lemma FindsSecond(b: Entry, e: Entry)
    requires e.ski == "a" && b.ski == ""
    ensures Lookup([b, e], "a", "", "") == Some(1)
  {
    assert Upper("") == "";
    assert Answers([b, e][1], "a", "", "") && !Answers([b, e][0], "a", "", "");
  }

  lemma ReplacesFirst(a: Entry, b: Entry)
    requires a == Device("a", "F1", "A") && b == Device("", "F2", "B")
    ensures After(Slot([a], "", false), Paired("B", "F2", false)) == Slot([b], "B", true)
  {
    assert TrimSpace("F2") == "F2";
    assert [a][0] == a && OneAddCu([a]);
    HolderUnique([a], 0);
    assert RemoveAt([a], 0) == [];
    assert Merge([], b) == Merged([b], b) by { assert Matches([], b) == []; }
    hide Merge, TrimSpace, TrustedAddCu, OneAddCu;
  }

  lemma AddsSecond(a: Entry, b: Entry, tracked: string, armed: bool)
    requires a.fingerprint == "F1" && a.shipId == "A" && a.addCu && b == Device("", "F2", "B")
    ensures After(Slot([b], tracked, armed), Added(a)) == Slot([b, a], tracked, armed)
    ensures Crowds(Slot([b], tracked, armed), Added(a))
  {
    assert Upper("F1")[1] == '1' && Upper("F2")[1] == '2';
    MergeApart(b, a);
    assert [b][0] == b && !Share(a, b);
    hide Merge, Share;
  }

  lemma TrustsSecond(a: Entry, b: Entry)
    requires a == Device("a", "F1", "A") && b.ski == ""
    ensures After(Slot([b, a.(trusted := false)], "B", true), Updated("a", true, false)).reg == [b, a]
  {
    NormalizeKeeps("a");
    FindsSecond(b, a.(trusted := false));
    hide Lookup;
  }

  /**
   A control unit is replaced while it is being dialled. The dial merges its record again, and when the
   connection gets through hello there are two.
   */
  lemma RedialMakesTwo()
    ensures var a, b := Device("a", "F1", "A"), Device("", "F2", "B");
            var s := Slot([a], "", false);
            && SlotOk(s) && Crowds(After(s, Paired("B", "F2", false)), Added(a.(trusted := false)))
            && AfterAll(s, [Paired("B", "F2", false), Added(a.(trusted := false)), Updated("a", true, false)]).reg == [b, a]
            && !OneAddCu([b, a])
  {
    var a, b := Device("a", "F1", "A"), Device("", "F2", "B");
    var s := Slot([a], "", false);
    assert [a][0] == a;
    assert SlotOk(s);
    ReplacesFirst(a, b);
    AddsSecond(a.(trusted := false), b, "B", true);
    TrustsSecond(a, b);
    TwoAddCu(b, a);
    hide After, SlotOk, OneAddCu, Crowds;
    ThreeEvents(s, Paired("B", "F2", false), Added(a.(trusted := false)), Updated("a", true, false));
  }

  /** The application registers two control units, and nothing is evicted. */
  lemma RegisteringMakesTwo()
    ensures var a, b := Device("", "F1", "A"), Device("", "F2", "B");
            var ra, rb := Registered("", "F1", "A", "", true, false, false), Registered("", "F2", "B", "", true, false, false);
            && Crowds(After(Slot([], "", false), rb), ra) && !OneAddCu([b, a])
            && AfterAll(Slot([], "", false), [rb, ra]) == Slot([b, a], "", false)
  {
    var a, b := Device("", "F1", "A"), Device("", "F2", "B");
    var ra, rb := Registered("", "F1", "A", "", true, false, false), Registered("", "F2", "B", "", true, false, false);
    assert Upper("F1")[1] == '1' && Upper("F2")[1] == '2';
    MergeApart(a, b);
    MergeApart(b, a);
    RegistersAs(Slot([], "", false), "F2", "B", b, [b]);
    RegistersAs(Slot([b], "", false), "F1", "A", a, [b, a]);
    assert [b][0] == b && !Share(a, b);
    assert Crowds(Slot([b], "", false), ra);
    TwoAddCu(b, a);
    hide After, OneAddCu, Crowds;
    ThreeEvents(Slot([], "", false), rb, ra, Expired);
  }

  lemma RegistersAs(s: Slot, fingerprint: string, shipId: string, e: Entry, reg: seq<Entry>)
    requires e == Device("", fingerprint, shipId) && fingerprint != "" && shipId != "" && Merge(s.reg, e) == Merged(reg, e)
    ensures After(s, Registered("", fingerprint, shipId, "", true, false, false)) == s.(reg := reg)
  {
    hide Merge;
  }

  // ---------------------------------------------------------------- a request that fails after the eviction

  /** The candidate of a request is refused. */
  predicate Refused(reg: seq<Entry>, shipId: string, fingerprint: string) {
    var n := NewService("", fingerprint, shipId);
    n == None || Merge(reg, n.value.(trusted := true, addCu := true)) == Failed
  }

  /**
   Outside the window the previous device is removed before the new one is checked: a request from another
   certificate that is then refused leaves the slot empty. A refused request changes the registry exactly
   when there was such a device and no window.
   */
  lemma RefusalExact(s: Slot, shipId: string, fingerprint: string, connected: bool)
    requires SlotOk(s) && TrimSpace(fingerprint) != ""
    requires var prior := Replaced(s, fingerprint);
             Refused(if prior.Some? && !InReplacementWindow(s) then Evict(s, prior.value).reg else s.reg, shipId, fingerprint)
    ensures PairingSuccess(s, shipId, fingerprint, connected).reg != s.reg
            <==> Replaced(s, fingerprint).Some? && !InReplacementWindow(s)
    ensures PairingSuccess(s, shipId, fingerprint, connected).reg != s.reg
            ==> TrustedAddCu(PairingSuccess(s, shipId, fingerprint, connected).reg) == None
  {
  }

  lemma PairsFirst(a: Entry)
    requires a == Device("", "F1", "A") && Merge([], a) == Merged([a], a)
    ensures After(Slot([], "", false), Paired("A", "F1", true)) == Slot([a], "", false)
  {
    assert TrimSpace("F1") == "F1";
    hide Merge, TrimSpace;
  }

  lemma EvictsFirst(a: Entry)
    requires a == Device("", "F1", "A")
    ensures After(Slot([a], "", false), Paired("", "F2", true)) == Slot([], "", false)
  {
    assert TrimSpace("F2") == "F2";
    assert [a][0] == a && OneAddCu([a]);
    HolderUnique([a], 0);
    assert RemoveAt([a], 0) == [];
    hide Merge, TrimSpace, TrustedAddCu, OneAddCu;
  }

  /** A connected control unit loses its place to a request without a SHIP ID, which is then refused. */
  lemma RefusalReachable()
    ensures var a := Device("", "F1", "A");
            && AfterAll(Slot([], "", false), [Paired("A", "F1", true)]) == Slot([a], "", false)
            && AfterAll(Slot([], "", false), [Paired("A", "F1", true), Paired("", "F2", true)]) == Slot([], "", false)
  {
    var a := Device("", "F1", "A");
    var s := Slot([], "", false);
    MergeApart(Device("x", "", ""), a);
    PairsFirst(a);
    EvictsFirst(a);
    hide After;
    OneEvent(s, Paired("A", "F1", true));
    ThreeEvents(s, Paired("A", "F1", true), Paired("", "F2", true), Expired);
  }
}
