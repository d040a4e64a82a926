/**
 The registry of remote services as the object it is: a list of service records that a merge updates and
 deletes in place. Its methods are proved against the functions of TrustStore.
 */
module TrustHub {
  import opened Basics
  import opened Letters
  import opened TrustStore

  // ---------------------------------------------------------------- deleting positions from the back

  /** The positions below n that are not dropped, in order. */
  function Without(dropped: seq<nat>, n: nat): (ks: seq<nat>)
    ensures forall k | 0 <= k < |ks| :: ks[k] < n
  {
    if n == 0 then [] else
    var rest := Without(dropped, n - 1);
    if n - 1 in dropped then rest else rest + [n - 1]
  }

  lemma {:induction false} WithoutNone(dropped: seq<nat>, n: nat)
    requires forall i: nat | i < n :: i !in dropped
    ensures |Without(dropped, n)| == n && forall i | 0 <= i < n :: Without(dropped, n)[i] == i
  {
    if n > 0 { WithoutNone(dropped, n - 1); }
  }

  /** Dropping one more position, before all those dropped so far. */
  lemma {:induction false} WithoutOneMore(dropped: seq<nat>, i: nat, n: nat)
    requires i < n && forall k | 0 <= k < |dropped| :: i < dropped[k]
    ensures var ks := Without(dropped, n);
            i < |ks| && ks[i] == i && Without([i] + dropped, n) == ks[..i] + ks[i + 1..]
    decreases n
  {
    var ks := Without(dropped, n);
    var all := [i] + dropped;
    assert forall x | x != i :: x in all <==> x in dropped;
    if n == i + 1 {
      WithoutNone(dropped, n);
      WithoutNone(dropped, i);
      WithoutNone(all, i) by { assert forall j: nat | j < i :: j !in all; }
      assert i in all by { assert all[0] == i; }
      assert Without(all, i) == Without(dropped, i);
    } else {
      WithoutOneMore(dropped, i, n - 1);
      var ls := Without(dropped, n - 1);
      if n - 1 !in dropped { assert (ls + [n - 1])[i + 1..] == ls[i + 1..] + [n - 1]; }
    }
  }

  lemma DeleteNext<T>(xs: seq<T>, dropped: seq<nat>, i: nat)
    requires i < |xs| && forall k | 0 <= k < |dropped| :: i < dropped[k]
    ensures var ys := Select(xs, Without(dropped, |xs|));
            i < |ys| && ys[..i] + ys[i + 1..] == Select(xs, Without([i] + dropped, |xs|))
  {
    WithoutOneMore(dropped, i, |xs|);
  }

  lemma {:induction false} KeptIsWithout(ms: seq<nat>, c: nat, absorbed: seq<nat>, n: nat)
    requires forall x :: x in absorbed <==> x in ms && x != c
    ensures Kept(ms, c, n) == Without(absorbed, n)
  {
    if n > 0 { KeptIsWithout(ms, c, absorbed, n - 1); }
  }

  // ---------------------------------------------------------------- what the loops compute

  lemma {:induction false} CanonicalIsFirstTrusted(reg: seq<Entry>, ms: seq<nat>, k: nat)
    requires ms != [] && (forall j | 0 <= j < |ms| :: ms[j] < |reg|) && k <= |ms|
    requires forall j | 0 <= j < k :: !reg[ms[j]].trusted
    ensures k < |ms| && reg[ms[k]].trusted ==> Canonical(reg, ms) == ms[k]
    ensures k == |ms| ==> Canonical(reg, ms) == ms[0]
    decreases |ms|
  {
    if k > 0 && |ms| > 1 { CanonicalIsFirstTrusted(reg, ms[1..], k - 1); }
  }

  // ---------------------------------------------------------------- the objects

  class ServiceDetails {
    var ski: string
    var fingerprint: string
    var shipId: string
    var ipv4: string
    var trusted: bool
    var autoAccept: bool
    var addCu: bool

    ghost function View(): Entry
      reads this
    {
      Entry(ski, fingerprint, shipId, ipv4, trusted, autoAccept, addCu)
    }

    constructor (ski: string, fingerprint: string, shipId: string)
      ensures View() == Entry(NormalizeSki(ski), fingerprint, shipId, "", false, false, false)
    {
      this.ski := NormalizeSki(ski);
      this.fingerprint, this.shipId, this.ipv4 := fingerprint, shipId, "";
      trusted, autoAccept, addCu := false, false, false;
    }

    /** NewServiceDetails: what it refuses, and the record it makes of the rest. */
    static method NewServiceDetails(ski: string, fingerprint: string, shipId: string) returns (r: Option<ServiceDetails>)
      ensures r == None <==> ski == "" && (fingerprint == "" || shipId == "")
      ensures r.Some? ==> fresh(r.value) && Some(r.value.View()) == NewService(ski, fingerprint, shipId)
    {
      if ski == "" && fingerprint == "" { return None; }
      if ski == "" && fingerprint != "" && shipId == "" { return None; }
      var service := new ServiceDetails(ski, fingerprint, shipId);
      r := Some(service);
    }

    method SetSki(value: string)
      modifies this
      ensures View() == old(View()).(ski := NormalizeSki(value))
    {
      ski := NormalizeSki(value);
    }

    method AnswersTo(ski: string, fingerprint: string, shipId: string) returns (b: bool)
      ensures b <==> Answers(View(), ski, fingerprint, shipId)
    {
      var fpUpper, sPrint := Upper(fingerprint), Upper(this.fingerprint);
      var skiConflict := ski != "" && this.ski != "" && this.ski != ski;
      var fpConflict := fpUpper != "" && sPrint != "" && sPrint != fpUpper;
      var shipConflict := shipId != "" && this.shipId != "" && this.shipId != shipId;
      if skiConflict || fpConflict || shipConflict { return false; }
      var skiMatch := ski != "" && this.ski == ski;
      var fpMatch := fpUpper != "" && sPrint == fpUpper;
      var shipMatch := shipId != "" && this.shipId == shipId;
      b := skiMatch || fpMatch || shipMatch;
    }

    /** foldInto with this as the destination. */
    method FoldFrom(src: ServiceDetails)
      modifies this
      ensures View() == FoldInto(old(View()), old(src.View()))
    {
      if this == src { return; }
      FoldIdentifiers(src);
      FoldTrust(src);
    }

    method FoldIdentifiers(src: ServiceDetails)
      requires this != src
      modifies this
      ensures var f := FoldInto(old(View()), old(src.View()));
              View() == f.(trusted := old(trusted), autoAccept := old(autoAccept), addCu := old(addCu))
    {
      hide NormalizeSki, NormalSki;
      if ski == "" && src.ski != "" { SetSki(src.ski); }
      if fingerprint == "" && src.fingerprint != "" { fingerprint := src.fingerprint; }
      if shipId == "" && src.shipId != "" { shipId := src.shipId; }
      if ipv4 == "" && src.ipv4 != "" { ipv4 := src.ipv4; }
    }

    method FoldTrust(src: ServiceDetails)
      requires this != src
      modifies this
      ensures View() == old(View()).(trusted := old(trusted) || src.trusted, autoAccept := old(autoAccept) || src.autoAccept,
                                     addCu := old(addCu) || src.addCu)
    {
      if src.trusted { trusted := true; }
      if src.autoAccept { autoAccept := true; }
      if src.addCu { addCu := true; }
    }
  }

  class Registry {
    var remoteServices: seq<ServiceDetails>

    /** Every record is in the list once. */
    ghost predicate Valid()
      reads this
    {
      AllDistinct(remoteServices)
    }

    static ghost predicate AllDistinct(services: seq<ServiceDetails>) {
      forall i, j | 0 <= i < j < |services| :: services[i] != services[j]
    }

    ghost function View(): (r: seq<Entry>)
      reads this, remoteServices
      ensures |r| == |remoteServices| && forall i | 0 <= i < |r| :: r[i] == remoteServices[i].View()
    {
      seq(|remoteServices|, i requires 0 <= i < |remoteServices| reads this, remoteServices => remoteServices[i].View())
    }

    constructor ()
      ensures Valid() && View() == []
    {
      remoteServices := [];
    }

    method FindMatches(candidate: ServiceDetails) returns (matches: seq<nat>)
      requires Valid()
      ensures matches == Matches(View(), candidate.View())
    {
      matches := [];
      var candPrint := Upper(candidate.fingerprint);
      var i := 0;
      while i < |remoteServices|
        invariant 0 <= i <= |remoteServices|
        invariant matches == Matches(View()[..i], candidate.View())
      {
        var s := remoteServices[i];
        assert View()[..i + 1][..i] == View()[..i];
        assert Share(candidate.View(), s.View()) <==>
          (candidate.ski != "" && s.ski == candidate.ski) || (candPrint != "" && Upper(s.fingerprint) == candPrint)
          || (candidate.shipId != "" && s.shipId == candidate.shipId);
        if (candidate.ski != "" && s.ski == candidate.ski)
           || (candPrint != "" && Upper(s.fingerprint) == candPrint)
           || (candidate.shipId != "" && s.shipId == candidate.shipId)
        {
          matches := matches + [i];
        }
        i := i + 1;
      }
      assert View()[..i] == View();
    }

    method CheckConflicts(candidate: ServiceDetails, matches: seq<nat>) returns (ok: bool)
      requires forall k | 0 <= k < |matches| :: matches[k] < |remoteServices|
      ensures ok <==> NoConflict(View(), matches, candidate.ski, Upper(candidate.fingerprint), candidate.shipId)
    {
      var mergedSki, mergedPrint, mergedShip := candidate.ski, Upper(candidate.fingerprint), candidate.shipId;
      var k := 0;
      while k < |matches|
        invariant 0 <= k <= |matches|
        invariant NoConflict(View(), matches, candidate.ski, Upper(candidate.fingerprint), candidate.shipId)
                  <==> NoConflict(View(), matches[k..], mergedSki, mergedPrint, mergedShip)
      {
        var s := remoteServices[matches[k]];
        var fp := Upper(s.fingerprint);
        assert View()[matches[k..][0]] == s.View() && matches[k..][1..] == matches[k + 1..];
        if Clash(mergedSki, s.ski) { return false; }
        if Clash(mergedPrint, fp) { return false; }
        if Clash(mergedShip, s.shipId) { return false; }
        if mergedSki == "" { mergedSki := s.ski; }
        if mergedPrint == "" { mergedPrint := fp; }
        if mergedShip == "" { mergedShip := s.shipId; }
        k := k + 1;
      }
      ok := true;
    }

    /** The first trusted match, or else the first. */
    method PickCanonical(matches: seq<nat>) returns (c: nat)
      requires matches != [] && forall k | 0 <= k < |matches| :: matches[k] < |remoteServices|
      ensures c == Canonical(View(), matches)
    {
      c := matches[0];
      var k := 0;
      while k < |matches|
        invariant 0 <= k <= |matches| && c == matches[0]
        invariant forall j | 0 <= j < k :: !View()[matches[j]].trusted
      {
        CanonicalIsFirstTrusted(View(), matches, k);
        if remoteServices[matches[k]].trusted {
          c := matches[k];
          return;
        }
        k := k + 1;
      }
      CanonicalIsFirstTrusted(View(), matches, k);
    }

    /** Fold the candidate and every other match into the canonical record. */
    method FoldMatches(candidate: ServiceDetails, matches: seq<nat>, c: nat)
      requires Valid() && c < |remoteServices| && forall k | 0 <= k < |matches| :: matches[k] < |remoteServices|
      modifies remoteServices[c]
      ensures View() == old(View())[c := FoldAll(old(View()), matches, c, FoldInto(old(View())[c], old(candidate.View())))]
    {
      var canonical := remoteServices[c];
      ghost var reg := View();
      canonical.FoldFrom(candidate);
      var k := 0;
      assert matches[..0] == [];
      while k < |matches|
        invariant 0 <= k <= |matches|
        invariant View() == reg[c := FoldAll(reg, matches[..k], c, FoldInto(reg[c], old(candidate.View())))]
      {
        assert matches[..k + 1][..k] == matches[..k];
        var m := matches[k];
        if remoteServices[m] != canonical {
          assert m != c;
          canonical.FoldFrom(remoteServices[m]);
        } else {
          assert m == c;
        }
        k := k + 1;
      }
      assert matches[..k] == matches;
    }

    /** Delete the absorbed records, in descending order of their positions. */
    method DropAbsorbed(absorbed: seq<nat>)
      requires forall j, k | 0 <= j < k < |absorbed| :: absorbed[j] < absorbed[k]
      requires forall k | 0 <= k < |absorbed| :: absorbed[k] < |remoteServices|
      modifies this
      ensures remoteServices == Select(old(remoteServices), Without(absorbed, |old(remoteServices)|))
    {
      ghost var all := remoteServices;
      var k := |absorbed|;
      WithoutNone([], |all|);
      assert absorbed[k..] == [];
      while k > 0
        invariant 0 <= k <= |absorbed|
        invariant remoteServices == Select(all, Without(absorbed[k..], |all|))
      {
        k := k - 1;
        var i := absorbed[k];
        DeleteNext(all, absorbed[k + 1..], i);
        assert absorbed[k..] == [i] + absorbed[k + 1..];
        remoteServices := remoteServices[..i] + remoteServices[i + 1..];
      }
      assert absorbed[0..] == absorbed;
    }

    /** The part of a merge that happens when some record matches. */
    method MergeMatches(candidate: ServiceDetails, matches: seq<nat>) returns (canonical: ServiceDetails)
      requires Valid() && matches != [] && forall k | 0 <= k < |matches| :: matches[k] < |remoteServices|
      requires forall j, k | 0 <= j < k < |matches| :: matches[j] < matches[k]
      modifies this, remoteServices
      ensures Valid() && canonical in remoteServices && forall s | s in remoteServices :: s in old(remoteServices)
      ensures var reg := old(View());
              var c := Canonical(reg, matches);
              && canonical.View() == FoldAll(reg, matches, c, FoldInto(reg[c], old(candidate.View())))
              && View() == Select(reg[c := canonical.View()], Kept(matches, c, |reg|))
    {
      hide *;
      ghost var reg, services := View(), remoteServices;
      var c := PickCanonical(matches);
      canonical := remoteServices[c];
      FoldMatches(candidate, matches, c);
      ghost var folded := View();
      assert canonical.View() == folded[c];
      assert folded == reg[c := canonical.View()];
      RemoveAbsorbed(matches, c);
      assert canonical.View() == folded[c];
    }

    /** Remove every match but the canonical record. */
    method RemoveAbsorbed(matches: seq<nat>, c: nat)
      requires Valid() && c < |remoteServices| && forall k | 0 <= k < |matches| :: matches[k] < |remoteServices|
      requires forall j, k | 0 <= j < k < |matches| :: matches[j] < matches[k]
      modifies this
      ensures Valid() && remoteServices == Select(old(remoteServices), Kept(matches, c, |old(remoteServices)|))
      ensures View() == Select(old(View()), Kept(matches, c, |old(remoteServices)|))
      ensures old(remoteServices)[c] in remoteServices && forall s | s in remoteServices :: s in old(remoteServices)
    {
      hide AllDistinct, Kept, Without;
      var absorbed := Absorbed(matches, c);
      ghost var services := remoteServices;
      KeptIsWithout(matches, c, absorbed, |services|);
      DistinctSelect(services, Kept(matches, c, |services|));
      DropAbsorbed(absorbed);
      ghost var q := KeptAt(matches, c, |services|, c);
      assert remoteServices[q] == services[c];
    }

    lemma DistinctSelect(services: seq<ServiceDetails>, ks: seq<nat>)
      requires services == remoteServices && Valid() && forall k | 0 <= k < |ks| :: ks[k] < |services|
      requires forall j, k | 0 <= j < k < |ks| :: ks[j] < ks[k]
      ensures AllDistinct(Select(services, ks))
    {
    }

    /** What a merge gives when these are the matches and nothing conflicts. */
    static ghost function MergedAt(reg: seq<Entry>, cand: Entry, matches: seq<nat>): Outcome
      requires forall k | 0 <= k < |matches| :: matches[k] < |reg|
    {
      if matches == [] then Merged(reg + [cand], cand)
      else
        var c := Canonical(reg, matches);
        var e := FoldAll(reg, matches, c, FoldInto(reg[c], cand));
        Merged(Select(reg[c := e], Kept(matches, c, |reg|)), e)
    }

    static lemma MergeCases(reg: seq<Entry>, cand: Entry)
      ensures var ms := Matches(reg, cand);
              var ok := NoConflict(reg, ms, cand.ski, Upper(cand.fingerprint), cand.shipId);
              Merge(reg, cand) == if Identified(cand) && ok then MergedAt(reg, cand, ms) else Failed
    {
    }

    static method HasIdentifier(candidate: ServiceDetails) returns (b: bool)
      ensures b <==> Identified(candidate.View())
    {
      UpperEmpty(candidate.fingerprint);
      b := !(candidate.ski == "" && Upper(candidate.fingerprint) == "" && candidate.shipId == "");
    }

    /** The checks before anything is changed. */
    method Examine(candidate: ServiceDetails) returns (ok: bool, matches: seq<nat>)
      requires Valid()
      ensures forall k | 0 <= k < |matches| :: matches[k] < |remoteServices|
      ensures forall j, k | 0 <= j < k < |matches| :: matches[j] < matches[k]
      ensures Merge(View(), candidate.View()) == if ok then MergedAt(View(), candidate.View(), matches) else Failed
      ensures ok && matches == [] ==> candidate !in remoteServices
    {
      MergeCases(View(), candidate.View());
      hide View, AllDistinct, Share, Merge, MergedAt, Matches, NoConflict, Identified;
      var identified := HasIdentifier(candidate);
      if !identified { return false, []; }
      matches := FindMatches(candidate);
      ok := CheckConflicts(candidate, matches);
      if matches == [] { NewIsNoMember(candidate, matches); }
    }

    /** mergeOrAddService; the error is the missing result. */
    method MergeOrAddService(candidate: ServiceDetails) returns (r: Option<ServiceDetails>)
      requires Valid()
      modifies this, remoteServices
      ensures Valid()
      ensures r == None <==> Merge(old(View()), old(candidate.View())) == Failed
      ensures r == None ==> remoteServices == old(remoteServices) && View() == old(View())
      ensures r.Some? ==> View() == Merge(old(View()), old(candidate.View())).registry
      ensures r.Some? ==> r.value in remoteServices && r.value.View() == Merge(old(View()), old(candidate.View())).entry
      ensures forall s | s in remoteServices :: s == candidate || s in old(remoteServices)
    {
      hide View, AllDistinct, Merge, Canonical, Kept, FoldAll, FoldInto;
      var ok, matches := Examine(candidate);
      if !ok { return None; }
      if |matches| == 0 {
        assert matches == [];
        Append(candidate);
        return Some(candidate);
      }
      var canonical := MergeMatches(candidate, matches);
      r := Some(canonical);
    }

    method Append(candidate: ServiceDetails)
      requires Valid() && candidate !in remoteServices
      modifies this
      ensures Valid() && View() == old(View()) + [candidate.View()] && remoteServices == old(remoteServices) + [candidate]
    {
      remoteServices := remoteServices + [candidate];
    }

    static lemma UpperEmpty(s: string)
      ensures Upper(s) == "" <==> s == ""
    {
    }

    /** The matches other than the canonical record. */
    method Absorbed(matches: seq<nat>, c: nat) returns (absorbed: seq<nat>)
      requires Valid() && c < |remoteServices| && forall k | 0 <= k < |matches| :: matches[k] < |remoteServices|
      requires forall j, k | 0 <= j < k < |matches| :: matches[j] < matches[k]
      ensures forall x :: x in absorbed <==> x in matches && x != c
      ensures forall i, j | 0 <= i < j < |absorbed| :: absorbed[i] < absorbed[j]
      ensures forall i | 0 <= i < |absorbed| :: absorbed[i] < |remoteServices|
    {
      absorbed := [];
      var k := 0;
      while k < |matches|
        invariant 0 <= k <= |matches|
        invariant forall x :: x in absorbed <==> x in matches[..k] && x != c
        invariant forall i | 0 <= i < |absorbed| :: absorbed[i] < |remoteServices| && (k < |matches| ==> absorbed[i] < matches[k])
        invariant forall i, j | 0 <= i < j < |absorbed| :: absorbed[i] < absorbed[j]
      {
        if remoteServices[matches[k]] != remoteServices[c] { absorbed := absorbed + [matches[k]]; }
        k := k + 1;
      }
      assert matches[..k] == matches;
    }

    // -------------------------------------------------------------- lookups

    /** ServiceForIdentifierFull. */
    method ServiceForIdentifierFull(ski0: string, fingerprint: string, shipId: string)
      returns (r: Option<ServiceDetails>)
      requires Valid()
      ensures var at := Lookup(View(), NormalizeSki(ski0), fingerprint, shipId);
              r == if at.Some? then Some(remoteServices[at.value]) else None
    {
      hide Answers, NormalizeSki, Lookup;
      assert Lookup([], NormalizeSki(ski0), fingerprint, shipId) == None;
      var ski := NormalizeSki(ski0);
      ghost var reg := View();
      var firstMatch: Option<nat> := None;
      var i := 0;
      while i < |remoteServices|
        invariant 0 <= i <= |remoteServices|
        invariant firstMatch.Some? ==> firstMatch.value < i && !reg[firstMatch.value].trusted
        invariant firstMatch == Lookup(reg[..i], ski, fingerprint, shipId)
      {
        LookupStep(reg, ski, fingerprint, shipId, i);
        var answers := remoteServices[i].AnswersTo(ski, fingerprint, shipId);
        if answers {
          if remoteServices[i].trusted {
            LookupStops(reg, ski, fingerprint, shipId, i);
            return Some(remoteServices[i]);
          }
          if firstMatch == None { firstMatch := Some(i); }
        }
        i := i + 1;
      }
      assert reg[..i] == reg;
      r := if firstMatch.Some? then Some(remoteServices[firstMatch.value]) else None;
    }

    static lemma LookupStep(reg: seq<Entry>, ski: string, fp: string, ship: string, i: nat)
      requires i < |reg|
      ensures var r := Lookup(reg[..i], ski, fp, ship);
              Lookup(reg[..i + 1], ski, fp, ship)
              == if !Answers(reg[i], ski, fp, ship) then r
                 else if r == None || (!reg[r.value].trusted && reg[i].trusted) then Some(i) else r
    {
    }

    /** Once a trusted record answered and none before it did, later ones do not matter. */
    static lemma {:induction false} LookupStops(reg: seq<Entry>, ski: string, fp: string, ship: string, i: nat)
      requires i < |reg| && Lookup(reg[..i + 1], ski, fp, ship) == Some(i) && reg[i].trusted
      ensures Lookup(reg, ski, fp, ship) == Some(i)
      decreases |reg|
    {
    }

    /** removeServiceEntry. */
    method RemoveServiceEntry(target: ServiceDetails, ghost at: nat)
      requires Valid() && at < |remoteServices| && remoteServices[at] == target
      modifies this
      ensures Valid() && remoteServices == old(remoteServices)[..at] + old(remoteServices)[at + 1..]
      ensures View() == old(View())[..at] + old(View())[at + 1..]
    {
      var i := 0;
      while i < |remoteServices|
        invariant 0 <= i <= at && remoteServices == old(remoteServices)
      {
        if remoteServices[i] == target {
          remoteServices := remoteServices[..i] + remoteServices[i + 1..];
          return;
        }
        i := i + 1;
      }
    }

    /** A record in the list matches itself. */
    lemma NewIsNoMember(candidate: ServiceDetails, matches: seq<nat>)
      requires Identified(candidate.View()) && matches == Matches(View(), candidate.View()) && matches == []
      ensures candidate !in remoteServices
    {
      forall i | 0 <= i < |remoteServices| ensures remoteServices[i] != candidate {
        if Share(candidate.View(), View()[i]) { MatchesAll(View(), candidate.View(), i); }
        assert Share(candidate.View(), candidate.View()) by {
          assert |Upper(candidate.fingerprint)| == |candidate.fingerprint|;
        }
      }
    }
  }
}
