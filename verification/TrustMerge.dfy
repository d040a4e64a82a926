/**
 What a merge promises: exactly when it fails, that nothing is lost, that the candidate is found again, and
 that afterwards no two entries name a device in common.
 */
module TrustMerge {
  import opened Basics
  import opened Letters
  import opened TrustStore

  // ---------------------------------------------------------------- when it fails

  /** The candidate and the entries it matches. */
  function Parties(reg: seq<Entry>, cand: Entry): seq<Entry> {
    [cand] + Select(reg, Matches(reg, cand))
  }

  /** Two of them give different values for one identifier. */
  predicate Conflicting(parties: seq<Entry>) {
    exists j, k | 0 <= j < k < |parties| :: Disagree(parties[j], parties[k])
  }

  function SkiOf(e: Entry): string { e.ski }

  function PrintOf(e: Entry): string { Upper(e.fingerprint) }

  function ShipOf(e: Entry): string { e.shipId }

  /** One identifier along some entries. */
  function Field(xs: seq<Entry>, key: Entry -> string): (r: seq<string>)
    ensures |r| == |xs| && forall k | 0 <= k < |xs| :: r[k] == key(xs[k])
  {
    seq(|xs|, k requires 0 <= k < |xs| => key(xs[k]))
  }

  predicate Pairwise(vs: seq<string>) {
    forall j, k | 0 <= j < k < |vs| :: !Clash(vs[j], vs[k])
  }

  /** The first value given is the one later ones are compared with. */
  predicate RunAgrees(v: string, vs: seq<string>)
    decreases |vs|
  {
    vs == [] || (!Clash(v, vs[0]) && RunAgrees(Or(v, vs[0]), vs[1..]))
  }

  lemma {:induction false} RunExact(v: string, vs: seq<string>)
    ensures RunAgrees(v, vs) <==> Pairwise([v] + vs)
    decreases |vs|
  {
    if vs != [] {
      RunExact(Or(v, vs[0]), vs[1..]);
      PairwiseStep(v, vs);
    }
  }

  lemma PairwiseStep(v: string, vs: seq<string>)
    requires vs != []
    ensures Pairwise([v] + vs) <==> !Clash(v, vs[0]) && Pairwise([Or(v, vs[0])] + vs[1..])
  {
    var xs := [v] + vs;
    var ys := [Or(v, vs[0])] + vs[1..];
    assert forall j | 0 < j < |ys| :: ys[j] == xs[j + 1];
    if !Clash(v, vs[0]) && Pairwise(ys) {
      forall j, k | 0 <= j < k < |xs| ensures !Clash(xs[j], xs[k]) {
        if j >= 2 { assert !Clash(ys[j - 1], ys[k - 1]); } else if k >= 2 { assert !Clash(ys[0], ys[k - 1]); }
      }
    }
    if Pairwise(xs) {
      assert !Clash(xs[0], xs[1]);
      forall j, k | 0 <= j < k < |ys| ensures !Clash(ys[j], ys[k]) {
        assert !Clash(xs[j + 1], xs[k + 1]) && !Clash(xs[0], xs[k + 1]);
      }
    }
  }

  lemma {:induction false} NoConflictRuns(reg: seq<Entry>, ms: seq<nat>, ski: string, fp: string, ship: string)
    requires forall k | 0 <= k < |ms| :: ms[k] < |reg|
    ensures var xs := Select(reg, ms);
            NoConflict(reg, ms, ski, fp, ship) <==>
            RunAgrees(ski, Field(xs, SkiOf)) && RunAgrees(fp, Field(xs, PrintOf)) && RunAgrees(ship, Field(xs, ShipOf))
    decreases |ms|
  {
    if ms != [] {
      var m := reg[ms[0]];
      var xs := Select(reg, ms);
      NoConflictRuns(reg, ms[1..], Or(ski, m.ski), Or(fp, Upper(m.fingerprint)), Or(ship, m.shipId));
      assert xs[1..] == Select(reg, ms[1..]);
      FieldTail(xs, SkiOf);
      FieldTail(xs, PrintOf);
      FieldTail(xs, ShipOf);
    }
  }

  lemma FieldTail(xs: seq<Entry>, key: Entry -> string)
    requires xs != []
    ensures Field(xs, key)[1..] == Field(xs[1..], key)
  {
  }

  /** A merge fails exactly when the candidate has no identifier, or two given values disagree. */
  lemma MergeFails(reg: seq<Entry>, cand: Entry)
    ensures Merge(reg, cand) == Failed <==> !Identified(cand) || Conflicting(Parties(reg, cand))
  {
    var ms := Matches(reg, cand);
    var xs := Select(reg, ms);
    NoConflictRuns(reg, ms, cand.ski, Upper(cand.fingerprint), cand.shipId);
    RunExact(cand.ski, Field(xs, SkiOf));
    RunExact(Upper(cand.fingerprint), Field(xs, PrintOf));
    RunExact(cand.shipId, Field(xs, ShipOf));
    FieldCons(cand, xs, SkiOf);
    FieldCons(cand, xs, PrintOf);
    FieldCons(cand, xs, ShipOf);
    ConflictByField([cand] + xs);
    hide Matches, NoConflict, RunAgrees, Field, Select, Conflicting, Pairwise, Folded, Kept;
  }

  lemma FieldCons(e: Entry, xs: seq<Entry>, key: Entry -> string)
    ensures Field([e] + xs, key) == [key(e)] + Field(xs, key)
  {
  }

  lemma ConflictByField(ps: seq<Entry>)
    ensures !Conflicting(ps) <==>
            Pairwise(Field(ps, SkiOf)) && Pairwise(Field(ps, PrintOf)) && Pairwise(Field(ps, ShipOf))
  {
  }

  // ---------------------------------------------------------------- what the merged entry carries

  predicate AllNormal(reg: seq<Entry>) {
    forall i | 0 <= i < |reg| :: Normal(reg[i])
  }

  /** Folding adds flags, fills missing identifiers and changes no identifier that is there. */
  predicate Joins(a: Entry, b: Entry, r: Entry) {
    && r.ski == Or(a.ski, b.ski) && r.fingerprint == Or(a.fingerprint, b.fingerprint)
    && r.shipId == Or(a.shipId, b.shipId) && r.ipv4 == Or(a.ipv4, b.ipv4)
    && r.trusted == (a.trusted || b.trusted) && r.autoAccept == (a.autoAccept || b.autoAccept)
    && r.addCu == (a.addCu || b.addCu)
  }

  lemma FoldJoins(a: Entry, b: Entry)
    requires Normal(a) && Normal(b)
    ensures Joins(a, b, FoldInto(a, b)) && Normal(FoldInto(a, b))
  {
    NormalizeKeeps(b.ski);
  }

  function RawPrintOf(e: Entry): string { e.fingerprint }

  function Trusts(e: Entry): bool { e.trusted }

  function Accepts(e: Entry): bool { e.autoAccept }

  function IsAddCu(e: Entry): bool { e.addCu }

  predicate Flags(value: bool, flag: Entry -> bool, s: set<Entry>) {
    value <==> exists v | v in s :: flag(v)
  }

  predicate Names(value: string, key: Entry -> string, s: set<Entry>) {
    && (value == "" <==> forall v | v in s :: key(v) == "")
    && (value != "" ==> exists v | v in s :: key(v) == value)
  }

  /** What an entry made of some others says: every flag one of them has, and only identifiers of theirs. */
  predicate SumOf(e: Entry, s: set<Entry>) {
    && Flags(e.trusted, Trusts, s) && Flags(e.autoAccept, Accepts, s) && Flags(e.addCu, IsAddCu, s)
    && Names(e.ski, SkiOf, s) && Names(e.fingerprint, RawPrintOf, s) && Names(e.shipId, ShipOf, s)
  }

  lemma SumOfOne(e: Entry)
    ensures SumOf(e, {e})
  {
  }

  lemma SumOfMore(r: Entry, s: set<Entry>, b: Entry, t: Entry)
    requires SumOf(r, s) && Joins(r, b, t)
    ensures SumOf(t, s + {b})
  {
  }

  // ---------------------------------------------------------------- the merged entry sums up the parties

  function PartySet(reg: seq<Entry>, cand: Entry): set<Entry> {
    set p | p in Parties(reg, cand)
  }

  /** The entries folded so far: the canonical one, the candidate, and other matches. */
  function FoldedSet(reg: seq<Entry>, ms: seq<nat>, c: nat, cand: Entry): (s: set<Entry>)
    requires c < |reg| && forall k | 0 <= k < |ms| :: ms[k] < |reg|
    ensures forall x :: x in s <==> x == cand || x == reg[c] || exists k | 0 <= k < |ms| :: x == reg[ms[k]]
  {
    if ms == [] then {reg[c]} + {cand}
    else
      var m := ms[|ms| - 1];
      var s := FoldedSet(reg, ms[..|ms| - 1], c, cand);
      if m == c then s else s + {reg[m]}
  }

  lemma {:induction false} FoldedSums(reg: seq<Entry>, ms: seq<nat>, c: nat, cand: Entry)
    requires AllNormal(reg) && Normal(cand) && c < |reg| && forall k | 0 <= k < |ms| :: ms[k] < |reg|
    ensures var e := FoldAll(reg, ms, c, FoldInto(reg[c], cand)); SumOf(e, FoldedSet(reg, ms, c, cand)) && Normal(e)
    decreases |ms|
  {
    hide SumOf, FoldInto, Joins, Normal;
    if ms == [] {
      assert Normal(reg[c]);
      SumOfOne(reg[c]);
      FoldJoins(reg[c], cand);
      SumOfMore(reg[c], {reg[c]}, cand, FoldInto(reg[c], cand));
    } else {
      var rest := ms[..|ms| - 1];
      var m := ms[|ms| - 1];
      FoldedSums(reg, rest, c, cand);
      var d := FoldAll(reg, rest, c, FoldInto(reg[c], cand));
      if m != c {
        assert Normal(reg[m]);
        FoldJoins(d, reg[m]);
        SumOfMore(d, FoldedSet(reg, rest, c, cand), reg[m], FoldInto(d, reg[m]));
      }
    }
  }

  lemma PartySetContents(reg: seq<Entry>, cand: Entry)
    ensures var ms := Matches(reg, cand);
            forall x :: x in PartySet(reg, cand) <==> x == cand || exists k | 0 <= k < |ms| :: x == reg[ms[k]]
  {
    hide Matches, Share;
    var ms := Matches(reg, cand);
    var ps := Parties(reg, cand);
    forall x ensures x in PartySet(reg, cand) <==> x == cand || exists k | 0 <= k < |ms| :: x == reg[ms[k]] {
      assert x in PartySet(reg, cand) <==> x in ps;
      if i :| 0 <= i < |ps| && ps[i] == x { assert i > 0 ==> x == reg[ms[i - 1]]; }
      if x == cand { assert ps[0] == x; }
      if k :| 0 <= k < |ms| && x == reg[ms[k]] { assert ps[k + 1] == x; }
    }
  }

  lemma FoldedParties(reg: seq<Entry>, cand: Entry)
    requires Matches(reg, cand) != []
    ensures FoldedSet(reg, Matches(reg, cand), Canonical(reg, Matches(reg, cand)), cand) == PartySet(reg, cand)
  {
    hide *;
    PartySetContents(reg, cand);
    var ms := Matches(reg, cand);
    var c := Canonical(reg, ms);
    var k :| 0 <= k < |ms| && ms[k] == c;
  }

  /** Nothing is lost: the merged entry sums up the candidate and all its matches. */
  lemma MergeKeeps(reg: seq<Entry>, cand: Entry)
    requires AllNormal(reg) && Normal(cand) && Merge(reg, cand) != Failed
    ensures SumOf(Merge(reg, cand).entry, PartySet(reg, cand)) && Normal(Merge(reg, cand).entry)
  {
    var ms := Matches(reg, cand);
    if ms == [] {
      assert Parties(reg, cand) == [cand];
      assert PartySet(reg, cand) == {cand};
      hide SumOf;
      SumOfOne(cand);
    } else {
      var c := Canonical(reg, ms);
      var e := FoldAll(reg, ms, c, FoldInto(reg[c], cand));
      assert Merge(reg, cand).entry == e;
      hide *;
      FoldedSums(reg, ms, c, cand);
      FoldedParties(reg, cand);
    }
  }

  // ---------------------------------------------------------------- where the entries end up

  /** Where the merged entry was taken from: the canonical match, or a new place at the end. */
  function Home(reg: seq<Entry>, cand: Entry): nat {
    var ms := Matches(reg, cand);
    if ms == [] then |reg| else Canonical(reg, ms)
  }

  /** The old places of the entries of the new registry, in order. */
  function Slots(reg: seq<Entry>, cand: Entry): (ks: seq<nat>)
    ensures forall j, k | 0 <= j < k < |ks| :: ks[j] < ks[k]
  {
    var ms := Matches(reg, cand);
    if ms == [] then seq(|reg| + 1, i requires 0 <= i < |reg| + 1 => i) else Kept(ms, Canonical(reg, ms), |reg|)
  }

  /** Apart from the merged entry, only entries that did not match have a slot. */
  lemma SlotsContents(reg: seq<Entry>, cand: Entry, k: nat)
    requires k < |Slots(reg, cand)| && Slots(reg, cand)[k] != Home(reg, cand)
    ensures Slots(reg, cand)[k] < |reg| && !Share(cand, reg[Slots(reg, cand)[k]])
  {
    var i := Slots(reg, cand)[k];
    if i < |reg| && Share(cand, reg[i]) { MatchesAll(reg, cand, i); }
  }

  /** The merged entry, and every entry that did not match, has its slot. */
  lemma SlotAt(reg: seq<Entry>, cand: Entry, i: nat) returns (k: nat)
    requires i == Home(reg, cand) || (i < |reg| && !Share(cand, reg[i]))
    ensures k < |Slots(reg, cand)| && Slots(reg, cand)[k] == i
  {
    var ms := Matches(reg, cand);
    if ms == [] {
      k := i;
    } else {
      assert i in ms ==> i == Canonical(reg, ms);
      k := KeptAt(ms, Canonical(reg, ms), |reg|, i);
    }
  }

  /** The new registry is the old one in its old order, without the absorbed entries. */
  lemma MergeShape(reg: seq<Entry>, cand: Entry)
    requires Merge(reg, cand) != Failed
    ensures var t := Merge(reg, cand);
            var ks := Slots(reg, cand);
            var h := Home(reg, cand);
            && |t.registry| == |ks|
            && (forall k | 0 <= k < |ks| && ks[k] == h :: t.registry[k] == t.entry)
            && (forall k | 0 <= k < |ks| && ks[k] != h ::
                  ks[k] < |reg| && !Share(cand, reg[ks[k]]) && t.registry[k] == reg[ks[k]])
  {
    hide NoConflict, FoldAll, Share;
    forall k | 0 <= k < |Slots(reg, cand)| && Slots(reg, cand)[k] != Home(reg, cand)
      ensures Slots(reg, cand)[k] < |reg| && !Share(cand, reg[Slots(reg, cand)[k]])
    {
      SlotsContents(reg, cand, k);
    }
  }

  // ---------------------------------------------------------------- no two entries share an identifier

  /** No two entries name a device in common, apart from the one at x, which is the candidate itself. */
  predicate DistinctBut(reg: seq<Entry>, cand: Entry, x: Option<nat>) {
    && (x.Some? ==> x.value < |reg| && reg[x.value] == cand)
    && forall i, j | 0 <= i < |reg| && 0 <= j < |reg| && i != j && x != Some(i) && x != Some(j) :: !Share(reg[i], reg[j])
  }

  predicate Distinct(reg: seq<Entry>) {
    forall i, j | 0 <= i < |reg| && 0 <= j < |reg| && i != j :: !Share(reg[i], reg[j])
  }

  lemma MergedShares(e: Entry, ps: set<Entry>, n: Entry)
    requires SumOf(e, ps) && (Share(e, n) || Share(n, e))
    ensures exists p | p in ps :: Share(p, n)
  {
  }

  lemma PartiesApart(reg: seq<Entry>, cand: Entry, x: Option<nat>, b: nat)
    requires Identified(cand) && DistinctBut(reg, cand, x) && b < |reg| && !Share(cand, reg[b])
    ensures forall p | p in PartySet(reg, cand) :: !Share(p, reg[b])
  {
  }

  /**
   A merge leaves no two entries that share an identifier, also when the candidate is itself an entry that
   has just gained an identifier and so shares one with others.
   */
  lemma MergeDistinct(reg: seq<Entry>, cand: Entry, x: Option<nat>)
    requires AllNormal(reg) && Normal(cand) && DistinctBut(reg, cand, x) && Merge(reg, cand) != Failed
    ensures Distinct(Merge(reg, cand).registry)
  {
    var t := Merge(reg, cand);
    var ks := Slots(reg, cand);
    var h := Home(reg, cand);
    assert Identified(cand);
    hide Slots, Home, Merge, Share, SumOf, DistinctBut, AllNormal, Normal;
    MergeShape(reg, cand);
    forall i, j | 0 <= i < |t.registry| && 0 <= j < |t.registry| && i != j ensures !Share(t.registry[i], t.registry[j]) {
      assert ks[i] != ks[j];
      if ks[i] == h || ks[j] == h {
        HomeApart(reg, cand, x, if ks[i] == h then ks[j] else ks[i]);
      } else {
        OthersApart(reg, cand, x, ks[i], ks[j]);
      }
    }
  }

  lemma OthersApart(reg: seq<Entry>, cand: Entry, x: Option<nat>, a: nat, b: nat)
    requires Identified(cand) && DistinctBut(reg, cand, x) && a < |reg| && b < |reg| && a != b
    requires !Share(cand, reg[a]) && !Share(cand, reg[b])
    ensures !Share(reg[a], reg[b])
  {
  }

  lemma HomeApart(reg: seq<Entry>, cand: Entry, x: Option<nat>, b: nat)
    requires AllNormal(reg) && Normal(cand) && Identified(cand) && DistinctBut(reg, cand, x) && Merge(reg, cand) != Failed
    requires b < |reg| && !Share(cand, reg[b])
    ensures !Share(Merge(reg, cand).entry, reg[b]) && !Share(reg[b], Merge(reg, cand).entry)
  {
    var e := Merge(reg, cand).entry;
    hide *;
    MergeKeeps(reg, cand);
    PartiesApart(reg, cand, x, b);
    if Share(e, reg[b]) || Share(reg[b], e) { MergedShares(e, PartySet(reg, cand), reg[b]); }
  }

  // ---------------------------------------------------------------- the candidate is found again

  lemma {:induction false} FoldKeepsShipId(reg: seq<Entry>, ms: seq<nat>, c: nat, e: Entry)
    requires forall k | 0 <= k < |ms| :: ms[k] < |reg|
    requires e.shipId != ""
    ensures FoldAll(reg, ms, c, e).shipId == e.shipId
    decreases |ms|
  {
    if ms != [] { FoldKeepsShipId(reg, ms[..|ms| - 1], c, e); }
  }

  /** The canonical match spells the SHIP ID with other letters, which only the conflict check ignores. */
  predicate SpelledDifferently(reg: seq<Entry>, cand: Entry) {
    var ms := Matches(reg, cand);
    && cand.shipId != "" && ms != []
    && reg[Canonical(reg, ms)].shipId != "" && reg[Canonical(reg, ms)].shipId != cand.shipId
  }

  lemma MergedShipId(reg: seq<Entry>, cand: Entry)
    requires Merge(reg, cand) != Failed && cand.shipId != ""
    ensures Merge(reg, cand).entry.shipId == cand.shipId <==> !SpelledDifferently(reg, cand)
  {
    var ms := Matches(reg, cand);
    if ms != [] {
      var c := Canonical(reg, ms);
      FoldKeepsShipId(reg, ms, c, FoldInto(reg[c], cand));
    }
    hide NoConflict, Matches, Canonical, FoldAll, Kept;
  }

  lemma MergedAnswers(reg: seq<Entry>, cand: Entry)
    requires AllNormal(reg) && Normal(cand) && Merge(reg, cand) != Failed
    ensures Answers(Merge(reg, cand).entry, cand.ski, cand.fingerprint, cand.shipId) <==> !SpelledDifferently(reg, cand)
  {
    var e := Merge(reg, cand).entry;
    var ps := Parties(reg, cand);
    MergeFails(reg, cand);
    MergeKeeps(reg, cand);
    if cand.shipId != "" { MergedShipId(reg, cand); }
    assert cand.shipId == "" ==> !SpelledDifferently(reg, cand);
    assert ps[0] == cand && Identified(cand);
    hide Merge, Parties, Matches, SpelledDifferently, Upper;
    assert cand.ski != "" ==> e.ski == cand.ski by { SameSki(e, cand, ps); }
    assert cand.fingerprint != "" ==> Upper(e.fingerprint) == Upper(cand.fingerprint) by { SamePrint(e, cand, ps); }
    assert Upper(cand.fingerprint) != "" <==> cand.fingerprint != "" by { assert |Upper(cand.fingerprint)| == |cand.fingerprint|; }
    assert cand.shipId != "" ==> e.shipId != "" by { assert cand in PartySet(reg, cand) && ShipOf(cand) == cand.shipId; }
  }

  lemma SameSki(e: Entry, cand: Entry, ps: seq<Entry>)
    requires SumOf(e, set p | p in ps) && !Conflicting(ps) && |ps| > 0 && ps[0] == cand && Normal(e) && Normal(cand)
    ensures cand.ski != "" ==> e.ski == cand.ski
  {
    if cand.ski != "" {
      assert cand in ps && SkiOf(cand) == cand.ski;
      var q :| q in ps && SkiOf(q) == e.ski;
      var i :| 0 <= i < |ps| && ps[i] == q;
      if i > 0 {
        assert !Disagree(ps[0], ps[i]);
        NormalFold(cand.ski, e.ski);
      }
    }
  }

  lemma SamePrint(e: Entry, cand: Entry, ps: seq<Entry>)
    requires SumOf(e, set p | p in ps) && !Conflicting(ps) && |ps| > 0 && ps[0] == cand
    ensures cand.fingerprint != "" ==> Upper(e.fingerprint) == Upper(cand.fingerprint)
  {
    if cand.fingerprint != "" {
      assert cand in ps && RawPrintOf(cand) == cand.fingerprint;
      var q :| q in ps && RawPrintOf(q) == e.fingerprint;
      var i :| 0 <= i < |ps| && ps[i] == q;
      if i > 0 {
        assert !Disagree(ps[0], ps[i]);
        UpperTwice(cand.fingerprint);
        UpperTwice(e.fingerprint);
        assert |Upper(cand.fingerprint)| == |cand.fingerprint| && |Upper(e.fingerprint)| == |e.fingerprint|;
      }
    }
  }

  lemma UpperTwice(s: string)
    ensures Upper(Upper(s)) == Upper(s)
  {
  }

  /**
   Looking up the candidate's identifiers afterwards returns the merged entry, and nothing at all exactly
   when the entry it was merged into spells the SHIP ID with other upper and lower case letters.
   */
  lemma MergeFound(reg: seq<Entry>, cand: Entry)
    requires AllNormal(reg) && Normal(cand) && Merge(reg, cand) != Failed
    ensures var t := Merge(reg, cand);
            var found := Lookup(t.registry, NormalizeSki(cand.ski), cand.fingerprint, cand.shipId);
            && (SpelledDifferently(reg, cand) <==> found == None)
            && (found.Some? ==> t.registry[found.value] == t.entry && Slots(reg, cand)[found.value] == Home(reg, cand))
  {
    var t := Merge(reg, cand);
    var ks := Slots(reg, cand);
    var h := Home(reg, cand);
    assert NormalSki(cand.ski);
    hide *;
    NormalizeKeeps(cand.ski);
    MergedAnswers(reg, cand);
    MergeShape(reg, cand);
    var q := SlotAt(reg, cand, h);
    assert t.registry[q] == t.entry;
    forall k | 0 <= k < |ks| && ks[k] != h ensures !Answers(t.registry[k], cand.ski, cand.fingerprint, cand.shipId) {
      AnswersShare(reg[ks[k]], cand);
    }
    FoundAt(t.registry, cand, q);
  }

  /** Only the entry at q can answer. */
  lemma FoundAt(reg: seq<Entry>, cand: Entry, q: nat)
    requires q < |reg|
    requires forall k | 0 <= k < |reg| && k != q :: !Answers(reg[k], cand.ski, cand.fingerprint, cand.shipId)
    ensures var found := Lookup(reg, cand.ski, cand.fingerprint, cand.shipId);
            found == if Answers(reg[q], cand.ski, cand.fingerprint, cand.shipId) then Some(q) else None
  {
  }

  lemma AnswersShare(e: Entry, cand: Entry)
    ensures Answers(e, cand.ski, cand.fingerprint, cand.shipId) ==> Share(cand, e)
  {
  }

  /** The spelling can differ: the fingerprint matches, and the SHIP IDs differ in case only. */
  lemma SpellingReachable()
    ensures var e, cand := Entry("", "F", "ABC", "", false, false, false), Entry("", "F", "abc", "", false, false, false);
            && Merge([e], cand) == Merged([e], e) && SpelledDifferently([e], cand)
            && Lookup([e], "", "F", "abc") == None
  {
    var e, cand := Entry("", "F", "ABC", "", false, false, false), Entry("", "F", "abc", "", false, false, false);
    assert Upper("ABC") == Upper("abc");
    assert [e][..0] == [] && [e][0] == e;
    assert Share(cand, e) && Matches([e], cand) == [0];
    OneMatch(e, cand);
    assert "ABC"[0] != "abc"[0];
    assert Lookup([], "", "F", "abc") == None && !Answers(e, "", "F", "abc");
  }

  lemma OneMatch(e: Entry, cand: Entry)
    requires Matches([e], cand) == [0] && Identified(cand) && !Disagree(cand, e) && cand.shipId != "" && e.ski == cand.ski == ""
    requires FoldInto(e, cand) == e
    ensures Merge([e], cand) == Merged([e], e)
    ensures SpelledDifferently([e], cand) <==> e.shipId != "" && e.shipId != cand.shipId
  {
    var reg, ms := [e], [0];
    assert ms[1..] == [] && ms[..0] == [] && reg[0 := e] == [e];
    assert Canonical(reg, ms) == 0 && Kept(ms, 0, 0) == [] && Kept(ms, 0, 1) == [0];
    assert FoldAll(reg, [], 0, e) == e && FoldAll(reg, ms, 0, e) == e;
    assert NoConflict(reg, [], Or(cand.ski, e.ski), Or(Upper(cand.fingerprint), Upper(e.fingerprint)), Or(cand.shipId, e.shipId));
    assert Select([e], [0]) == [e];
  }
}
