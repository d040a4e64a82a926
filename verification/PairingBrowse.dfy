/**
 The cache of pairing records seen over mDNS (mdns/mdns.go): which report of a service instance is handed
 to the listener.
 */
module PairingBrowse {
  import opened Basics
  import opened PairingRecord
  import opened PairingTxt

  /** A service instance was seen with some elements, or has gone. */
  datatype Report = Seen(name: string, elements: map<string, string>) | Gone(name: string)

  /** The record a report carries; a removal carries none, whatever its elements. */
  function Carried(r: Report): Option<Txt> {
    match r
    case Seen(_, elements) => Process(elements)
    case Gone(_) => None
  }

  predicate Counts(r: Report) {
    r.Gone? || Carried(r).Some?
  }

  function AfterReport(m: map<string, Txt>, r: Report): map<string, Txt> {
    match r
    case Gone(name) => m - {name}
    case Seen(name, _) => if Carried(r).Some? then m[name := Carried(r).value] else m
  }

  /** What is handed over: a valid record that is not the one already known under this name. */
  function Delivered(m: map<string, Txt>, r: Report): Option<Txt> {
    var t := Carried(r);
    if t.Some? && r.name in m && m[r.name] == t.value then None else t
  }

  function Cache(rs: seq<Report>): map<string, Txt> {
    if rs == [] then map[] else AfterReport(Cache(rs[..|rs| - 1]), rs[|rs| - 1])
  }

  /** The report at k is the last under its name that is a removal or carries a valid record. */
  predicate Latest(rs: seq<Report>, k: nat) {
    k < |rs| && Counts(rs[k]) && forall j | k < j < |rs| && rs[j].name == rs[k].name :: !Counts(rs[j])
  }

  lemma LatestGrows(rs: seq<Report>, name: string, t: Txt)
    requires rs != []
    ensures var n := |rs| - 1;
            var rest := rs[..n];
            (exists k | 0 <= k < |rs| :: Latest(rs, k) && rs[k].name == name && Carried(rs[k]) == Some(t))
            <==> if rs[n].name == name && Counts(rs[n]) then Carried(rs[n]) == Some(t)
                 else exists k | 0 <= k < n :: Latest(rest, k) && rest[k].name == name && Carried(rest[k]) == Some(t)
  {
    hide Carried;
    var n := |rs| - 1;
    var rest := rs[..n];
    assert forall k | 0 <= k < n && rs[k].name == name ::
        Latest(rs, k) <==> Latest(rest, k) && !(rs[n].name == name && Counts(rs[n]));
    if rs[n].name == name && Counts(rs[n]) { assert Latest(rs, n); }
  }

  /** The cache holds, for every name, the record of the latest report that counts. */
  lemma {:induction false} CacheIsLatest(rs: seq<Report>, name: string, t: Txt)
    ensures name in Cache(rs) && Cache(rs)[name] == t
            <==> exists k | 0 <= k < |rs| :: Latest(rs, k) && rs[k].name == name && Carried(rs[k]) == Some(t)
  {
    if rs != [] {
      hide Process, Latest;
      CacheIsLatest(rs[..|rs| - 1], name, t);
      LatestGrows(rs, name, t);
    }
  }

  /**
   After any reports, a record is handed over exactly when it is valid and the latest report that counts
   under its name did not carry the same record: refreshes are ignored, corrections are not.
   */
  lemma DeliveredExact(rs: seq<Report>, r: Report, t: Txt)
    ensures Delivered(Cache(rs), r) == Some(t)
            <==> Carried(r) == Some(t)
                 && !exists k | 0 <= k < |rs| :: Latest(rs, k) && rs[k].name == r.name && Carried(rs[k]) == Some(t)
  {
    CacheIsLatest(rs, r.name, t);
  }

  class MdnsManager {
    var pairingEntries: map<string, Txt>
    var callbackSet: bool

    constructor ()
      ensures pairingEntries == map[] && !callbackSet
    {
      pairingEntries, callbackSet := map[], false;
    }

    /** processShipPairingMdnsEntry; the result is what the callback is invoked with. */
    method ProcessShipPairingMdnsEntry(r: Report) returns (delivered: Option<Txt>)
      modifies this
      ensures pairingEntries == AfterReport(old(pairingEntries), r) && callbackSet == old(callbackSet)
      ensures delivered == if callbackSet then Delivered(old(pairingEntries), r) else None
    {
      hide Process;
      if r.Gone? {
        if r.name in pairingEntries { pairingEntries := pairingEntries - {r.name}; }
        return None;
      }
      var t := Process(r.elements);
      if t == None { return None; }
      if r.name in pairingEntries && pairingEntries[r.name] == t.value { return None; }
      pairingEntries := pairingEntries[r.name := t.value];
      delivered := if callbackSet then t else None;
    }
  }
}
