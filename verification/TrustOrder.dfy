/**
 Building the trust store from partial views of devices: whatever the order, no view conflicts, no entry
 mixes two devices, and the result is one entry for each connected group of views.
 */
module TrustOrder {
  import opened Basics
  import opened Letters
  import opened TrustStore
  import opened TrustMerge

  /** A device by its three identifiers; the fingerprint in upper case. */
  datatype Device = Device(ski: string, fingerprint: string, shipId: string)

  predicate PartOf(v: Entry, d: Device) {
    && (v.ski == "" || v.ski == d.ski)
    && (v.fingerprint == "" || Upper(v.fingerprint) == d.fingerprint)
    && (v.shipId == "" || v.shipId == d.shipId)
  }

  /** No identifier belongs to two devices. */
  predicate Disjoint(ds: set<Device>) {
    forall d, e | d in ds && e in ds && d != e ::
      && (d.ski != "" ==> d.ski != e.ski) && (d.fingerprint != "" ==> d.fingerprint != e.fingerprint)
      && (d.shipId != "" ==> d.shipId != e.shipId)
  }

  predicate ViewOf(v: Entry, ds: set<Device>) {
    Normal(v) && Identified(v) && exists d | d in ds :: PartOf(v, d)
  }

  /** The registry after adding some views in order; a view that conflicts is not added. */
  function Build(vs: seq<Entry>): seq<Entry> {
    if vs == [] then [] else
    var reg := Build(vs[..|vs| - 1]);
    match Merge(reg, vs[|vs| - 1])
    case Failed => reg
    case Merged(r, _) => r
  }

  // ---------------------------------------------------------------- groups of views

  predicate Bridge(part: set<Entry>, whole: set<Entry>) {
    exists a, b | a in part && b in whole && b !in part :: Share(a, b)
  }

  /** A group that falls apart nowhere: every part of it shares an identifier with the rest. */
  ghost predicate Linked(g: set<Entry>) {
    forall h: set<Entry> | h <= g && h != {} && h != g :: Bridge(h, g)
  }

  predicate Apart(g: set<Entry>, h: set<Entry>) {
    forall a, b | a in g && b in h :: !Share(a, b)
  }

  /** The entry and all views of its group belong to one device. */
  predicate OfOne(e: Entry, g: set<Entry>, d: Device) {
    PartOf(e, d) && forall v | v in g :: PartOf(v, d)
  }

  ghost predicate GroupOk(e: Entry, g: set<Entry>, ds: set<Device>) {
    && g != {} && Normal(e) && SumOf(e, g) && Linked(g)
    && (forall v | v in g :: Identified(v))
    && exists d | d in ds :: OfOne(e, g, d)
  }

  predicate Covers(groups: seq<set<Entry>>, views: set<Entry>) {
    && (forall i | 0 <= i < |groups| :: groups[i] <= views)
    && (forall v | v in views :: exists i | 0 <= i < |groups| :: v in groups[i])
  }

  predicate AllApart(groups: seq<set<Entry>>) {
    forall i, j | 0 <= i < |groups| && 0 <= j < |groups| && i != j :: Apart(groups[i], groups[j])
  }

  /** One entry for each connected group of the views, and no entry for two devices. */
  ghost predicate Grouped(reg: seq<Entry>, groups: seq<set<Entry>>, views: set<Entry>, ds: set<Device>) {
    && |groups| == |reg| && Covers(groups, views) && AllApart(groups)
    && forall i | 0 <= i < |reg| :: GroupOk(reg[i], groups[i], ds)
  }

  // ---------------------------------------------------------------- one more view

  lemma SameDevice(a: Entry, b: Entry, d: Device, e: Device, ds: set<Device>)
    requires Disjoint(ds) && d in ds && e in ds && PartOf(a, d) && PartOf(b, e) && Share(a, b)
    ensures d == e
  {
  }

  lemma OneDeviceAgrees(ps: seq<Entry>, d: Device)
    requires forall i | 0 <= i < |ps| :: PartOf(ps[i], d)
    ensures !Conflicting(ps)
  {
  }

  /** Every match belongs to the device of the view. */
  lemma MatchesOfDevice(reg: seq<Entry>, groups: seq<set<Entry>>, views: set<Entry>, ds: set<Device>, v: Entry, d: Device, i: nat)
    requires Grouped(reg, groups, views, ds) && Disjoint(ds) && d in ds && PartOf(v, d) && i < |reg| && Share(v, reg[i])
    ensures OfOne(reg[i], groups[i], d)
  {
    assert GroupOk(reg[i], groups[i], ds);
    var e :| e in ds && OfOne(reg[i], groups[i], e);
    SameDevice(v, reg[i], d, e, ds);
  }

  /** An entry shares an identifier with a view exactly when some view of its group does. */
  lemma SharesWithGroup(v: Entry, e: Entry, g: set<Entry>, ds: set<Device>)
    requires GroupOk(e, g, ds)
    ensures Share(v, e) <==> exists u | u in g :: Share(v, u)
  {
  }

  lemma UpperLength(s: string)
    ensures Upper(s) == "" <==> s == ""
  {
  }

  /** The groups of the matches. */
  function Union(groups: seq<set<Entry>>, ms: seq<nat>): (u: set<Entry>)
    requires forall k | 0 <= k < |ms| :: ms[k] < |groups|
    ensures forall a :: a in u <==> exists k | 0 <= k < |ms| :: a in groups[ms[k]]
  {
    if ms == [] then {} else Union(groups, ms[..|ms| - 1]) + groups[ms[|ms| - 1]]
  }

  /** The view together with the groups of all its matches. */
  function Grown(groups: seq<set<Entry>>, ms: seq<nat>, v: Entry): set<Entry>
    requires forall k | 0 <= k < |ms| :: ms[k] < |groups|
  {
    {v} + Union(groups, ms)
  }

  lemma GrownContains(groups: seq<set<Entry>>, ms: seq<nat>, v: Entry)
    requires forall k | 0 <= k < |ms| :: ms[k] < |groups|
    ensures forall u :: u in Grown(groups, ms, v) <==> u == v || exists k | 0 <= k < |ms| :: u in groups[ms[k]]
  {
  }

  lemma GrownLinked(groups: seq<set<Entry>>, ms: seq<nat>, v: Entry)
    requires forall k | 0 <= k < |ms| :: ms[k] < |groups| && Linked(groups[ms[k]])
    requires forall k | 0 <= k < |ms| :: exists u | u in groups[ms[k]] :: Share(v, u)
    ensures Linked(Grown(groups, ms, v))
  {
    var g := Grown(groups, ms, v);
    forall h: set<Entry> | h <= g && h != {} && h != g ensures Bridge(h, g) {
      GrownBridge(groups, ms, v, h);
    }
  }

  lemma GrownBridge(groups: seq<set<Entry>>, ms: seq<nat>, v: Entry, h: set<Entry>)
    requires forall k | 0 <= k < |ms| :: ms[k] < |groups| && Linked(groups[ms[k]])
    requires forall k | 0 <= k < |ms| :: exists u | u in groups[ms[k]] :: Share(v, u)
    requires h <= Grown(groups, ms, v) && h != {} && h != Grown(groups, ms, v)
    ensures Bridge(h, Grown(groups, ms, v))
  {
    var g := Grown(groups, ms, v);
    GrownContains(groups, ms, v);
    hide Grown, Linked, Share;
    // A group that is cut in two bridges the cut; otherwise one that lies wholly on the other side than v does.
    if k :| 0 <= k < |ms| && groups[ms[k]] * h != {} && !(groups[ms[k]] <= h) {
      GroupBridges(groups[ms[k]], h, g);
    } else if v in h {
      assert h != g && h <= g;
      var b :| b in g && b !in h;
      var k :| 0 <= k < |ms| && b in groups[ms[k]];
      var u :| u in groups[ms[k]] && Share(v, u);
      assert groups[ms[k]] * h == {};
      assert u !in groups[ms[k]] * h;
      assert u in g;
    } else {
      var a :| a in h;
      var k :| 0 <= k < |ms| && a in groups[ms[k]];
      var u :| u in groups[ms[k]] && Share(v, u);
      assert u in h by { assert a in groups[ms[k]] * h; }
      ShareBack(v, u);
    }
  }

  lemma ShareBack(a: Entry, b: Entry)
    ensures Share(a, b) <==> Share(b, a)
  {
  }

  lemma GroupBridges(s: set<Entry>, h: set<Entry>, g: set<Entry>)
    requires Linked(s) && s <= g && s * h != {} && !(s <= h)
    ensures Bridge(h, g)
  {
    assert s * h != s;
    assert Bridge(s * h, s);
    var a, b :| a in s * h && b in s && b !in s * h && Share(a, b);
    assert a in h && b in g && b !in h;
  }

  /** The group grown by the view consists of the views behind the parties. */
  ghost predicate Behind(reg: seq<Entry>, groups: seq<set<Entry>>, ms: seq<nat>, v: Entry, ps: set<Entry>) {
    && |groups| == |reg| && (forall k | 0 <= k < |ms| :: ms[k] < |groups| && SumOf(reg[ms[k]], groups[ms[k]]))
    && forall x :: x in ps <==> x == v || exists k | 0 <= k < |ms| :: x == reg[ms[k]]
  }

  lemma NamesGrow(reg: seq<Entry>, groups: seq<set<Entry>>, ms: seq<nat>, v: Entry, ps: set<Entry>,
                  value: string, key: Entry -> string)
    requires Behind(reg, groups, ms, v, ps) && Names(value, key, ps)
    requires forall k | 0 <= k < |ms| :: Names(key(reg[ms[k]]), key, groups[ms[k]])
    ensures Names(value, key, Grown(groups, ms, v))
  {
  }

  lemma FlagsGrow(reg: seq<Entry>, groups: seq<set<Entry>>, ms: seq<nat>, v: Entry, ps: set<Entry>,
                  value: bool, flag: Entry -> bool)
    requires Behind(reg, groups, ms, v, ps) && Flags(value, flag, ps)
    requires forall k | 0 <= k < |ms| :: Flags(flag(reg[ms[k]]), flag, groups[ms[k]])
    ensures Flags(value, flag, Grown(groups, ms, v))
  {
  }

  lemma GrownSum(reg: seq<Entry>, groups: seq<set<Entry>>, ms: seq<nat>, v: Entry, ps: set<Entry>, e: Entry)
    requires Behind(reg, groups, ms, v, ps) && SumOf(e, ps)
    ensures SumOf(e, Grown(groups, ms, v))
  {
    forall k | 0 <= k < |ms| ensures SumOf(reg[ms[k]], groups[ms[k]]) {}
    hide Flags, Names, Grown, Behind;
    FlagsGrow(reg, groups, ms, v, ps, e.trusted, Trusts);
    FlagsGrow(reg, groups, ms, v, ps, e.autoAccept, Accepts);
    FlagsGrow(reg, groups, ms, v, ps, e.addCu, IsAddCu);
    NamesGrow(reg, groups, ms, v, ps, e.ski, SkiOf);
    NamesGrow(reg, groups, ms, v, ps, e.fingerprint, RawPrintOf);
    NamesGrow(reg, groups, ms, v, ps, e.shipId, ShipOf);
  }

  lemma SumOfDevice(e: Entry, ps: set<Entry>, d: Device)
    requires SumOf(e, ps) && forall p | p in ps :: PartOf(p, d)
    ensures PartOf(e, d)
  {
  }

  /** What the registry says of the matches of a view of device d. */
  ghost predicate Matched(reg: seq<Entry>, groups: seq<set<Entry>>, ms: seq<nat>, v: Entry, d: Device) {
    && |groups| == |reg|
    && forall k | 0 <= k < |ms| ::
         && ms[k] < |reg| && OfOne(reg[ms[k]], groups[ms[k]], d) && SumOf(reg[ms[k]], groups[ms[k]])
         && Linked(groups[ms[k]]) && (forall u | u in groups[ms[k]] :: Identified(u))
         && exists u | u in groups[ms[k]] :: Share(v, u)
  }

  lemma ViewMatches(reg: seq<Entry>, groups: seq<set<Entry>>, views: set<Entry>, ds: set<Device>, v: Entry, d: Device)
    requires Grouped(reg, groups, views, ds) && Disjoint(ds) && d in ds && PartOf(v, d)
    ensures Matched(reg, groups, Matches(reg, v), v, d)
  {
    var ms := Matches(reg, v);
    forall k | 0 <= k < |ms|
      ensures OfOne(reg[ms[k]], groups[ms[k]], d) && exists u | u in groups[ms[k]] :: Share(v, u)
      ensures GroupOk(reg[ms[k]], groups[ms[k]], ds)
    {
      MatchesOfDevice(reg, groups, views, ds, v, d, ms[k]);
      SharesWithGroup(v, reg[ms[k]], groups[ms[k]], ds);
    }
    hide OfOne, SumOf, Linked, Identified, Share, Matches;
  }

  /** A view of a device never conflicts. */
  lemma ViewMerges(reg: seq<Entry>, groups: seq<set<Entry>>, v: Entry, d: Device)
    requires Matched(reg, groups, Matches(reg, v), v, d) && PartOf(v, d) && Identified(v)
    ensures Merge(reg, v) != Failed
    ensures forall p | p in PartySet(reg, v) :: PartOf(p, d)
  {
    hide PartOf, Merge, Matches, Linked, SumOf, Share;
    PartySetContents(reg, v);
    forall p | p in PartySet(reg, v) ensures PartOf(p, d) { hide PartySet; }
    var ps := Parties(reg, v);
    forall i | 0 <= i < |ps| ensures PartOf(ps[i], d) { assert ps[i] in PartySet(reg, v); }
    OneDeviceAgrees(ps, d);
    MergeFails(reg, v);
  }

  lemma GrownViews(reg: seq<Entry>, groups: seq<set<Entry>>, v: Entry, d: Device)
    requires Matched(reg, groups, Matches(reg, v), v, d) && PartOf(v, d) && Identified(v)
    ensures forall u | u in Grown(groups, Matches(reg, v), v) :: PartOf(u, d) && Identified(u)
    ensures Linked(Grown(groups, Matches(reg, v), v))
  {
    var ms := Matches(reg, v);
    hide SumOf, Matches, PartOf, Linked, Share, Identified;
    forall u | u in Grown(groups, ms, v) ensures PartOf(u, d) && Identified(u) {
      if u != v {
        var k :| 0 <= k < |ms| && u in groups[ms[k]];
        assert OfOne(reg[ms[k]], groups[ms[k]], d);
      }
    }
    GrownLinked(groups, ms, v);
  }

  lemma GrownSummed(reg: seq<Entry>, groups: seq<set<Entry>>, v: Entry, d: Device)
    requires Matched(reg, groups, Matches(reg, v), v, d) && Normal(v) && AllNormal(reg) && Merge(reg, v) != Failed
    ensures SumOf(Merge(reg, v).entry, Grown(groups, Matches(reg, v), v)) && Normal(Merge(reg, v).entry)
    ensures SumOf(Merge(reg, v).entry, PartySet(reg, v))
  {
    var ms := Matches(reg, v);
    hide Merge, SumOf, Matches, PartySet, PartOf, Linked, Share, AllNormal, Normal, Identified, OfOne, Grown;
    MergeKeeps(reg, v);
    PartySetContents(reg, v);
    GrownSum(reg, groups, ms, v, PartySet(reg, v), Merge(reg, v).entry);
  }

  lemma GrownOk(reg: seq<Entry>, groups: seq<set<Entry>>, v: Entry, d: Device, ds: set<Device>)
    requires Matched(reg, groups, Matches(reg, v), v, d) && PartOf(v, d) && Identified(v) && Normal(v) && AllNormal(reg) && d in ds
    requires Merge(reg, v) != Failed && forall p | p in PartySet(reg, v) :: PartOf(p, d)
    ensures GroupOk(Merge(reg, v).entry, Grown(groups, Matches(reg, v), v), ds)
  {
    var e := Merge(reg, v).entry;
    var g := Grown(groups, Matches(reg, v), v);
    assert v in g;
    hide Matched, Merge, SumOf, Matches, PartySet, PartOf, Linked, Share, AllNormal, Normal, Identified, Grown;
    GrownSummed(reg, groups, v, d);
    GrownViews(reg, groups, v, d);
    SumOfDevice(e, PartySet(reg, v), d);
    assert OfOne(e, g, d);
  }

  function GrownGroups(reg: seq<Entry>, groups: seq<set<Entry>>, v: Entry): seq<set<Entry>>
    requires |groups| == |reg|
  {
    var ks := Slots(reg, v);
    assert forall k | 0 <= k < |ks| && ks[k] != Home(reg, v) :: ks[k] < |reg| by {
      forall k | 0 <= k < |ks| && ks[k] != Home(reg, v) ensures ks[k] < |reg| { SlotsContents(reg, v, k); }
    }
    var h := Home(reg, v);
    seq(|ks|, k requires 0 <= k < |ks| => if ks[k] == h then Grown(groups, Matches(reg, v), v) else groups[ks[k]])
  }

  lemma GrownApart(reg: seq<Entry>, groups: seq<set<Entry>>, ds: set<Device>, v: Entry, b: nat)
    requires |groups| == |reg| && AllApart(groups) && b < |reg| && GroupOk(reg[b], groups[b], ds) && !Share(v, reg[b])
    ensures Apart(Grown(groups, Matches(reg, v), v), groups[b]) && Apart(groups[b], Grown(groups, Matches(reg, v), v))
  {
    var ms := Matches(reg, v);
    SharesWithGroup(v, reg[b], groups[b], ds);
    hide GroupOk;
    forall a, c | a in Grown(groups, ms, v) && c in groups[b] ensures !Share(a, c) && !Share(c, a) {
      if a != v {
        var k :| 0 <= k < |ms| && a in groups[ms[k]];
        assert Apart(groups[ms[k]], groups[b]);
      }
    }
  }

  lemma GroupAt(reg: seq<Entry>, groups: seq<set<Entry>>, v: Entry, k: nat)
    requires |groups| == |reg| && k < |Slots(reg, v)|
    ensures |GrownGroups(reg, groups, v)| == |Slots(reg, v)|
    ensures Slots(reg, v)[k] == Home(reg, v) ==> GrownGroups(reg, groups, v)[k] == Grown(groups, Matches(reg, v), v)
    ensures Slots(reg, v)[k] != Home(reg, v) ==>
              var b := Slots(reg, v)[k];
              b < |reg| && !Share(v, reg[b]) && GrownGroups(reg, groups, v)[k] == groups[b]
  {
    if Slots(reg, v)[k] != Home(reg, v) { SlotsContents(reg, v, k); }
  }

  lemma TwoGroupsApart(reg: seq<Entry>, groups: seq<set<Entry>>, ds: set<Device>, v: Entry, i: nat, j: nat)
    requires |groups| == |reg| && AllApart(groups) && forall i | 0 <= i < |reg| :: GroupOk(reg[i], groups[i], ds)
    requires i < |Slots(reg, v)| && j < |Slots(reg, v)| && i != j
    ensures |GrownGroups(reg, groups, v)| == |Slots(reg, v)|
    ensures Apart(GrownGroups(reg, groups, v)[i], GrownGroups(reg, groups, v)[j])
  {
    var ks := Slots(reg, v);
    var h := Home(reg, v);
    hide GroupOk, Slots, Home, Share, Apart, GrownGroups;
    GroupAt(reg, groups, v, i);
    GroupAt(reg, groups, v, j);
    assert ks[i] != ks[j];
    if ks[i] == h {
      GrownApart(reg, groups, ds, v, ks[j]);
    } else if ks[j] == h {
      GrownApart(reg, groups, ds, v, ks[i]);
    }
  }

  lemma GroupsApart(reg: seq<Entry>, groups: seq<set<Entry>>, ds: set<Device>, v: Entry)
    requires |groups| == |reg| && AllApart(groups) && forall i | 0 <= i < |reg| :: GroupOk(reg[i], groups[i], ds)
    ensures AllApart(GrownGroups(reg, groups, v))
  {
    var gs := GrownGroups(reg, groups, v);
    hide GroupOk, Slots, Home, Share, Apart;
    forall i, j | 0 <= i < |gs| && 0 <= j < |gs| && i != j ensures Apart(gs[i], gs[j]) {
      TwoGroupsApart(reg, groups, ds, v, i, j);
    }
  }

  lemma GroupWithin(reg: seq<Entry>, groups: seq<set<Entry>>, views: set<Entry>, v: Entry, i: nat)
    requires |groups| == |reg| && Covers(groups, views) && i < |GrownGroups(reg, groups, v)|
    ensures GrownGroups(reg, groups, v)[i] <= views + {v}
  {
  }

  lemma ViewCovered(reg: seq<Entry>, groups: seq<set<Entry>>, v: Entry, i: nat, u: Entry) returns (k: nat)
    requires |groups| == |reg| && i < |groups| && u in groups[i]
    ensures k < |GrownGroups(reg, groups, v)| && u in GrownGroups(reg, groups, v)[k]
  {
    HomeMatches(reg, v);
    hide Share, GrownGroups, Slots;
    if Share(v, reg[i]) {
      k := GrownAt(reg, groups, v);
    } else {
      k := SlotAt(reg, v, i);
      GroupAt(reg, groups, v, k);
    }
  }

  lemma HomeMatches(reg: seq<Entry>, v: Entry)
    ensures Home(reg, v) < |reg| ==> Share(v, reg[Home(reg, v)])
  {
  }

  /** The place of the grown group. */
  lemma GrownAt(reg: seq<Entry>, groups: seq<set<Entry>>, v: Entry) returns (q: nat)
    requires |groups| == |reg|
    ensures q < |GrownGroups(reg, groups, v)| && v in GrownGroups(reg, groups, v)[q]
    ensures forall i, u | 0 <= i < |reg| && Share(v, reg[i]) && u in groups[i] :: u in GrownGroups(reg, groups, v)[q]
  {
    hide Slots, Home, Share, GrownGroups, Matches;
    q := SlotAt(reg, v, Home(reg, v));
    GroupAt(reg, groups, v, q);
    var ms := Matches(reg, v);
    forall i, u | 0 <= i < |reg| && Share(v, reg[i]) && u in groups[i] ensures u in Grown(groups, ms, v) {
      MatchesAll(reg, v, i);
      var k :| 0 <= k < |ms| && ms[k] == i;
    }
  }

  lemma GroupsCover(reg: seq<Entry>, groups: seq<set<Entry>>, views: set<Entry>, v: Entry)
    requires |groups| == |reg| && Covers(groups, views)
    ensures Covers(GrownGroups(reg, groups, v), views + {v})
  {
    var gs := GrownGroups(reg, groups, v);
    hide GrownGroups, Share;
    forall i | 0 <= i < |gs| ensures gs[i] <= views + {v} { GroupWithin(reg, groups, views, v, i); }
    forall u | u in views + {v} ensures exists i | 0 <= i < |gs| :: u in gs[i] {
      if u == v {
        var q := GrownAt(reg, groups, v);
      } else {
        var i :| 0 <= i < |groups| && u in groups[i];
        var k := ViewCovered(reg, groups, v, i, u);
      }
    }
  }

  lemma AddView(reg: seq<Entry>, groups: seq<set<Entry>>, views: set<Entry>, ds: set<Device>, v: Entry)
    requires Grouped(reg, groups, views, ds) && Disjoint(ds) && ViewOf(v, ds)
    ensures Merge(reg, v) != Failed
    ensures Grouped(Merge(reg, v).registry, GrownGroups(reg, groups, v), views + {v}, ds)
  {
    var d :| d in ds && PartOf(v, d);
    assert AllNormal(reg) by { hide SumOf, Linked; forall i | 0 <= i < |reg| ensures Normal(reg[i]) { assert GroupOk(reg[i], groups[i], ds); } }
    hide PartOf, Merge, Matches, SumOf, Linked, Slots, Home, GroupOk, AllApart, Covers, AllNormal, Normal, Identified;
    ViewMatches(reg, groups, views, ds, v, d);
    ViewMerges(reg, groups, v, d);
    GrownOk(reg, groups, v, d, ds);
    MergeShape(reg, v);
    GroupsApart(reg, groups, ds, v);
    GroupsCover(reg, groups, views, v);
  }

  // ---------------------------------------------------------------- any sequence of views

  predicate Views(vs: seq<Entry>, ds: set<Device>) {
    forall i | 0 <= i < |vs| :: ViewOf(vs[i], ds)
  }

  function ViewSet(vs: seq<Entry>): set<Entry> {
    set v | v in vs
  }

  lemma {:induction false} BuildGroups(vs: seq<Entry>, ds: set<Device>) returns (groups: seq<set<Entry>>)
    requires Disjoint(ds) && Views(vs, ds)
    ensures Grouped(Build(vs), groups, ViewSet(vs), ds)
    decreases |vs|
  {
    hide Merge, GroupOk, Disjoint, ViewOf, GrownGroups;
    if vs == [] {
      groups := [];
    } else {
      var rest := vs[..|vs| - 1];
      var v := vs[|vs| - 1];
      var gs := BuildGroups(rest, ds);
      AddView(Build(rest), gs, ViewSet(rest), ds, v);
      groups := GrownGroups(Build(rest), gs, v);
      assert ViewSet(vs) == ViewSet(rest) + {v};
    }
  }

  /** No view of a device ever conflicts, whatever was added before. */
  lemma NeverConflicts(vs: seq<Entry>, ds: set<Device>, v: Entry)
    requires Disjoint(ds) && Views(vs, ds) && ViewOf(v, ds)
    ensures Merge(Build(vs), v) != Failed
  {
    var groups := BuildGroups(vs, ds);
    hide *;
    AddView(Build(vs), groups, ViewSet(vs), ds, v);
  }

  // ---------------------------------------------------------------- the order does not matter

  lemma NoBridge(g: set<Entry>, groups: seq<set<Entry>>, views: set<Entry>, j: nat)
    requires g <= views && Covers(groups, views) && AllApart(groups) && j < |groups|
    ensures !Bridge(g * groups[j], g)
  {
  }

  lemma GroupFits(g: set<Entry>, groups: seq<set<Entry>>, views: set<Entry>, j: nat)
    requires Linked(g) && g <= views && Covers(groups, views) && AllApart(groups) && j < |groups| && g * groups[j] != {}
    ensures g <= groups[j]
  {
    NoBridge(g, groups, views, j);
    assert g * groups[j] <= g;
    hide Bridge, Covers, AllApart;
    assert g * groups[j] == g;
  }

  /** Two ways of grouping the same views are the same. */
  lemma SameGroups(reg: seq<Entry>, gs: seq<set<Entry>>, other: seq<Entry>, hs: seq<set<Entry>>, views: set<Entry>,
                   ds: set<Device>, i: nat) returns (j: nat)
    requires Grouped(reg, gs, views, ds) && Grouped(other, hs, views, ds) && i < |gs|
    ensures j < |hs| && gs[i] == hs[j]
  {
    assert GroupOk(reg[i], gs[i], ds);
    var v :| v in gs[i];
    assert v in views;
    j :| 0 <= j < |hs| && v in hs[j];
    assert GroupOk(other[j], hs[j], ds);
    assert v in gs[i] * hs[j];
    GroupFits(gs[i], hs, views, j);
    GroupFits(hs[j], gs, views, i);
  }

  /** What is compared of an entry: the fingerprint up to case, and everything but the address. */
  datatype Facts = Facts(ski: string, fingerprint: string, shipId: string, trusted: bool, autoAccept: bool, addCu: bool)

  function FactsOf(e: Entry): Facts {
    Facts(e.ski, Upper(e.fingerprint), e.shipId, e.trusted, e.autoAccept, e.addCu)
  }

  function FactSet(reg: seq<Entry>): set<Facts> {
    set i | 0 <= i < |reg| :: FactsOf(reg[i])
  }

  lemma SameFacts(e: Entry, f: Entry, g: set<Entry>, ds: set<Device>)
    requires GroupOk(e, g, ds) && GroupOk(f, g, ds) && Disjoint(ds)
    ensures FactsOf(e) == FactsOf(f)
  {
  }

  lemma FactsInto(reg: seq<Entry>, gs: seq<set<Entry>>, other: seq<Entry>, hs: seq<set<Entry>>, views: set<Entry>, ds: set<Device>)
    requires Grouped(reg, gs, views, ds) && Grouped(other, hs, views, ds) && Disjoint(ds)
    ensures FactSet(reg) <= FactSet(other)
  {
    hide GroupOk, Covers, AllApart, Disjoint, FactsOf;
    forall i | 0 <= i < |reg| ensures FactsOf(reg[i]) in FactSet(other) {
      var j := SameGroups(reg, gs, other, hs, views, ds, i);
      SameFacts(reg[i], other[j], gs[i], ds);
    }
  }

  /** No two entries of such a registry say the same. */
  lemma {:induction false} FactsDiffer(reg: seq<Entry>)
    requires Distinct(reg) && forall i | 0 <= i < |reg| :: Identified(reg[i])
    ensures |FactSet(reg)| == |reg|
    decreases |reg|
  {
    if reg != [] {
      var n := |reg| - 1;
      FactsDiffer(reg[..n]);
      assert FactSet(reg) == FactSet(reg[..n]) + {FactsOf(reg[n])};
      forall i | 0 <= i < n ensures FactsOf(reg[i]) != FactsOf(reg[n]) {
        UpperLength(reg[i].fingerprint);
        assert !Share(reg[i], reg[n]);
      }
      assert FactsOf(reg[n]) !in FactSet(reg[..n]);
    }
  }

  lemma GroupedDistinct(reg: seq<Entry>, groups: seq<set<Entry>>, views: set<Entry>, ds: set<Device>)
    requires Grouped(reg, groups, views, ds)
    ensures Distinct(reg) && forall i | 0 <= i < |reg| :: Identified(reg[i])
  {
    forall i | 0 <= i < |reg| ensures Identified(reg[i]) {
      assert GroupOk(reg[i], groups[i], ds);
      SomethingIdentified(reg[i], groups[i], ds);
    }
    forall i, j | 0 <= i < |reg| && 0 <= j < |reg| && i != j ensures !Share(reg[i], reg[j]) {
      assert GroupOk(reg[i], groups[i], ds) && GroupOk(reg[j], groups[j], ds) && Apart(groups[i], groups[j]);
      EntriesApart(reg[i], reg[j], groups[i], groups[j], ds);
    }
  }

  lemma SomethingIdentified(e: Entry, g: set<Entry>, ds: set<Device>)
    requires GroupOk(e, g, ds)
    ensures Identified(e)
  {
  }

  lemma EntriesApart(e: Entry, f: Entry, g: set<Entry>, h: set<Entry>, ds: set<Device>)
    requires GroupOk(e, g, ds) && GroupOk(f, h, ds) && Apart(g, h)
    ensures !Share(e, f)
  {
    SharesWithGroup(e, f, h, ds);
    forall u | u in h ensures !Share(e, u) {
      SharesWithGroup(u, e, g, ds);
      forall w | w in g ensures !Share(u, w) { assert !Share(w, u); }
    }
  }

  /**
   Adding the same views of the same devices in any order, with any repetitions, gives the same set of
   entries and as many of them. They are one for each connected group of views, and none for two devices.
   */
  lemma OrderIndependent(vs: seq<Entry>, ws: seq<Entry>, ds: set<Device>) returns (groups: seq<set<Entry>>)
    requires Disjoint(ds) && Views(vs, ds) && Views(ws, ds) && ViewSet(vs) == ViewSet(ws)
    ensures FactSet(Build(vs)) == FactSet(Build(ws)) && |Build(vs)| == |Build(ws)|
    ensures Grouped(Build(vs), groups, ViewSet(vs), ds)
  {
    groups := BuildGroups(vs, ds);
    var hs := BuildGroups(ws, ds);
    hide *;
    FactsInto(Build(vs), groups, Build(ws), hs, ViewSet(vs), ds);
    FactsInto(Build(ws), hs, Build(vs), groups, ViewSet(vs), ds);
    GroupedDistinct(Build(vs), groups, ViewSet(vs), ds);
    GroupedDistinct(Build(ws), hs, ViewSet(vs), ds);
    FactsDiffer(Build(vs));
    FactsDiffer(Build(ws));
  }
}
