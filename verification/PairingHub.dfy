/**
 The listener and the place of the control unit together (pairing/listener.go, hub/hub_pairing.go): what an
 accepted request does to the trust store, and what becomes of one that comes while the replacement timer runs.
 */
module PairingHub {
  import opened Basics
  import opened Letters
  import opened PairingRecord
  import opened TrustStore
  import opened TrustMerge
  import opened TrustSlot
  import L = PairingListener
  import R = RingBuffer

  datatype State = State(listener: L.Listener, slot: Slot)

  predicate StateOk(s: State) {
    L.ListenerOk(s.listener) && SlotOk(s.slot)
  }

  /** A record is discovered and accepted. */
  predicate Accepted(mac: Mac, l: L.Listener, t: Txt)
    requires l.next < |l.entries|
  {
    l.listening && t.forId == l.local.shipId && L.Judge(mac, l, t) == L.Accepts
  }

  /** handleMdnsDiscovery with its call of OnPairingSuccess: the digest is recorded whatever the hub then does. */
  function Heard(mac: Mac, s: State, t: Txt, saved: bool, connected: bool): State
    requires s.listener.next < |s.listener.entries|
  {
    State(L.Discover(mac, s.listener, t, saved).0,
          if Accepted(mac, s.listener, t) then PairingSuccess(s.slot, t.trustId, t.trustPar, connected) else s.slot)
  }

  /** The hub leaves a request for later: another certificate, within the replacement window. */
  predicate Deferred(slot: Slot, t: Txt) {
    Replaced(slot, t.trustPar).Some? && InReplacementWindow(slot)
  }

  /** The registry and the candidate an accepted request is merged into. */
  function Prior(slot: Slot, t: Txt): seq<Entry> {
    var prior := Replaced(slot, t.trustPar);
    if prior.Some? then Evict(slot, prior.value).reg else slot.reg
  }

  function Newcomer(t: Txt): Entry {
    Entry("", t.trustPar, t.trustId, "", true, false, true)
  }

  // ---------------------------------------------------------------- an accepted request

  lemma UpperHexTrims(s: string)
    requires IsUppercaseHex(s, 64)
    ensures TrimSpace(s) == s
  {
    assert !IsSpace(s[0]) && !IsSpace(s[63]);
  }

  lemma AcceptedIsValid(mac: Mac, l: L.Listener, t: Txt)
    requires l.next < |l.entries| && Accepted(mac, l, t)
    ensures TrimSpace(t.trustPar) != "" && t.trustPar != "" && t.trustId != "" && R.EMPTY.alg != t.alg
  {
    assert Ok(t);
    UpperHexTrims(t.trustPar);
    TrimmedEmpty(t.trustId);
  }

  lemma PairedAs(slot: Slot, t: Txt, connected: bool)
    requires TrimSpace(t.trustPar) != "" && t.trustPar != "" && t.trustId != ""
    ensures var r := PairingSuccess(slot, t.trustId, t.trustPar, connected);
            if Deferred(slot, t) then r == slot
            else match Merge(Prior(slot, t), Newcomer(t))
                 case Failed => r.reg == Prior(slot, t)
                 case Merged(reg, _) => r.reg == reg
  {
    assert NormalizeSki("") == "";
    hide Merge, TrimSpace, Evict, Replaced;
    EvictReg(slot, t);
  }

  lemma EvictReg(slot: Slot, t: Txt)
    ensures Replaced(slot, t.trustPar) == None ==> Prior(slot, t) == slot.reg
    ensures Replaced(slot, t.trustPar).Some? ==> Prior(slot, t) == Evict(slot, Replaced(slot, t.trustPar).value).reg
  {
  }

  /**
   An accepted request changes the place of the control unit unless it is deferred. Then nothing changes;
   otherwise the old holder is gone, and the announced device holds the place unless its identifiers conflict
   with those of other entries, which leaves the registry at that.
   */
  lemma AcceptanceExact(mac: Mac, s: State, t: Txt, saved: bool, connected: bool)
    requires StateOk(s) && s.listener.next < |s.listener.entries| && Accepted(mac, s.listener, t)
    requires SpelledAlike(ShipIdsOf(s.slot.reg) + {t.trustId})
    ensures var r := Heard(mac, s, t, saved, connected);
            && StateOk(r) && !r.listener.listening && r.listener.log == s.listener.log + [L.DigestOf(t)]
            && (Deferred(s.slot, t) ==> r.slot == s.slot)
            && (!Deferred(s.slot, t) && Merge(Prior(s.slot, t), Newcomer(t)) != Failed ==> HeldBy(r.slot.reg, t.trustId))
            && (!Deferred(s.slot, t) && Merge(Prior(s.slot, t), Newcomer(t)) == Failed ==> r.slot.reg == Prior(s.slot, t))
  {
    AcceptedIsValid(mac, s.listener, t);
    L.DiscoverKeeps(mac, s.listener, t, saved);
    PairingSuccessOk(s.slot, t.trustId, t.trustPar, connected);
    PairedAs(s.slot, t, connected);
    if !Deferred(s.slot, t) && Merge(Prior(s.slot, t), Newcomer(t)) != Failed { NewcomerHolds(s.slot, t); }
    hide L.ListenerOk, L.Judge, SlotOk, Merge, PairingSuccess, Prior, HeldBy;
  }

  lemma NewcomerHolds(slot: Slot, t: Txt)
    requires SlotOk(slot) && t.trustPar != "" && t.trustId != "" && SpelledAlike(ShipIdsOf(slot.reg) + {t.trustId})
    requires Merge(Prior(slot, t), Newcomer(t)) != Failed
    ensures HeldBy(Merge(Prior(slot, t), Newcomer(t)).registry, t.trustId)
  {
    var reg, e := Prior(slot, t), Newcomer(t);
    var prior := Replaced(slot, t.trustPar);
    assert AllNormal(slot.reg) && OneAddCu(slot.reg);
    if prior.Some? { RemovedOk(slot.reg, prior.value); }
    assert AllNormal(reg) && OneAddCu(reg) && ShipIdsOf(reg) <= ShipIdsOf(slot.reg);
    assert ShipIdsOf(reg) + {t.trustId} <= ShipIdsOf(slot.reg) + {t.trustId};
    assert Normal(e) && Holds(e) && e.addCu && e.shipId == t.trustId;
    hide *;
    assert SpelledAlike(ShipIdsOf(reg) + {e.shipId}) by { FewerSpelled(ShipIdsOf(reg) + {e.shipId}, ShipIdsOf(slot.reg) + {t.trustId}); }
    HolderStays(reg, e, t.trustId);
  }

  lemma FewerSpelled(a: set<string>, b: set<string>)
    requires a <= b && SpelledAlike(b)
    ensures SpelledAlike(a)
  {
  }

  // ---------------------------------------------------------------- a deferred request

  lemma {:induction false} RunConstants(mac: Mac, l: L.Listener, es: seq<L.Event>)
    requires L.ListenerOk(l) && L.Run(mac, l, es)
    ensures var r := L.AfterAll(mac, l, es); r.local == l.local && |r.entries| == |l.entries| && l.log <= r.log
    decreases |es|
  {
    hide L.ListenerOk, L.After;
    if es != [] {
      L.EventKeeps(mac, l, es[0]);
      EventConstants(mac, l, es[0]);
      RunConstants(mac, L.After(mac, l, es[0]), es[1..]);
    }
  }

  lemma EventConstants(mac: Mac, l: L.Listener, e: L.Event)
    requires L.ListenerOk(l) && L.EventOk(l, e) && l.next < |l.entries|
    ensures var r := L.After(mac, l, e); r.local == l.local && |r.entries| == |l.entries| && l.log <= r.log
  {
    hide L.Judge;
    match e
    case Snapshot(ts, saved) => PendingConstants(mac, l, ts, saved);
    case _ =>
  }

  lemma {:induction false} PendingConstants(mac: Mac, l: L.Listener, ts: seq<Txt>, saved: bool)
    requires l.next < |l.entries|
    ensures var r := L.Pending(mac, l, ts, saved); r.local == l.local && |r.entries| == |l.entries| && l.log <= r.log
    decreases |ts|
  {
    hide L.Judge;
    if ts != [] {
      var (r, more) := L.Discover(mac, l, ts[0], saved);
      assert r.local == l.local && |r.entries| == |l.entries| && l.log <= r.log;
      if more { PendingConstants(mac, r, ts[1..], saved); }
    }
  }

  /** What the checks say of an accepted record later, with the same secret: only the history can refuse it. */
  lemma JudgedLater(mac: Mac, l: L.Listener, r: L.Listener, t: Txt)
    requires l.next < |l.entries| && r.next < |r.entries| && L.Judge(mac, l, t) == L.Accepts
    requires r.local == l.local && r.secret == l.secret
    ensures L.Judge(mac, r, t) == if L.DigestOf(t) in R.Recent(r.entries, r.next) then L.Fails(L.Replay) else L.Accepts
  {
  }

  /**
   A deferred request does not come back when the timer has expired. However the listener goes on, a restart
   with the same secret refuses the same record as a replay as long as its digest is among the last that
   were accepted, that is, until as many other requests have been accepted as the history holds; after that,
   and only then, it is accepted.
   */
  lemma DeferredRetry(mac: Mac, s: State, t: Txt, saved: bool, connected: bool, es: seq<L.Event>)
    requires L.ListenerOk(s.listener) && s.listener.next < |s.listener.entries| && |s.listener.secret| == 16
    requires Accepted(mac, s.listener, t) && Deferred(s.slot, t)
    requires L.Run(mac, Heard(mac, s, t, saved, connected).listener, es)
    ensures var first := Heard(mac, s, t, saved, connected);
            var r := L.AfterAll(mac, first.listener, es);
            var again := L.Start(L.Stopped(r), s.listener.secret, true);
            && first.slot == s.slot && again.next < |again.entries|
            && (L.Judge(mac, again, t) == L.Accepts <==> L.DigestOf(t) !in R.Last(r.log, |r.entries|))
            && (L.Judge(mac, again, t) == L.Accepts || L.Judge(mac, again, t) == L.Fails(L.Replay))
            && (|r.log| < |s.listener.log| + 1 + |r.entries| ==> L.Judge(mac, again, t) == L.Fails(L.Replay))
  {
    var first := Heard(mac, s, t, saved, connected);
    FirstHeard(mac, s, t, saved, connected);
    var r := L.AfterAll(mac, first.listener, es);
    assert L.Judge(mac, s.listener, t) == L.Accepts;
    hide Heard, Deferred, PairingSuccess, L.Judge, Accepted;
    L.RunKeeps(mac, first.listener, es);
    RunConstants(mac, first.listener, es);
    L.StandsInRange(r.entries, r.next, r.log);
    R.SeenExact(r.entries, r.next, r.log, L.DigestOf(t));
    var again := L.Start(L.Stopped(r), s.listener.secret, true);
    JudgedLater(mac, s.listener, again, t);
    if |r.log| < |s.listener.log| + 1 + |r.entries| { InLast(s.listener.log, L.DigestOf(t), r.log, |r.entries|); }
  }

  lemma FirstHeard(mac: Mac, s: State, t: Txt, saved: bool, connected: bool)
    requires L.ListenerOk(s.listener) && s.listener.next < |s.listener.entries|
    requires Accepted(mac, s.listener, t) && Deferred(s.slot, t)
    ensures var first := Heard(mac, s, t, saved, connected);
            && first.slot == s.slot && L.ListenerOk(first.listener) && first.listener.local == s.listener.local
            && first.listener.log == s.listener.log + [L.DigestOf(t)] && L.DigestOf(t).alg != ""
  {
    AcceptedIsValid(mac, s.listener, t);
    PairedAs(s.slot, t, connected);
    L.DiscoverKeeps(mac, s.listener, t, saved);
    hide Deferred, PairingSuccess, L.ListenerOk;
  }

  lemma InLast(before: seq<R.Digest>, d: R.Digest, log: seq<R.Digest>, n: nat)
    requires before + [d] <= log && |log| < |before| + 1 + n
    ensures d in R.Last(log, n)
  {
    assert log[|before|] == d;
    if |log| > n { assert log[|log| - n..][|before| - (|log| - n)] == d; }
  }
}
