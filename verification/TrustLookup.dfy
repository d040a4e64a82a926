/**
 The trust store seen from the fields of its entries: whom a lookup finds, which entries a candidate matches,
 and what each field of a merged entry is.
 */
module TrustLookup {
  import opened Basics
  import opened Letters
  import opened TrustStore
  import opened TrustMerge

  // ---------------------------------------------------------------- whom a lookup finds

  predicate GivenAlike(a: string, b: string) {
    a != "" && a == b
  }

  predicate GivenUnlike(a: string, b: string) {
    a != "" && b != "" && a != b
  }

  /** One identifier is given on both sides, and none that is differs; fingerprints in upper case. */
  predicate Named(e: Entry, ski: string, fp: string, ship: string) {
    && (GivenAlike(ski, e.ski) || GivenAlike(Upper(fp), Upper(e.fingerprint)) || GivenAlike(ship, e.shipId))
    && !GivenUnlike(ski, e.ski) && !GivenUnlike(Upper(fp), Upper(e.fingerprint)) && !GivenUnlike(ship, e.shipId)
  }

  /** The place comes before every other one that is named, except that trusted entries come first. */
  predicate FirstNamed(reg: seq<Entry>, ski: string, fp: string, ship: string, i: nat) {
    && i < |reg| && Named(reg[i], ski, fp, ship)
    && forall j | 0 <= j < |reg| && j != i && Named(reg[j], ski, fp, ship) ::
         if reg[i].trusted == reg[j].trusted then i < j else reg[i].trusted
  }

  lemma NamedAnswers(e: Entry, ski: string, fp: string, ship: string)
    ensures Named(e, ski, fp, ship) <==> Answers(e, ski, fp, ship)
  {
  }

  /**
   A lookup finds the first trusted entry that is named by the identifiers, or else the first, and nothing
   only if every entry lacks what is given or differs from it.
   */
  lemma LookupExact(reg: seq<Entry>, ski: string, fp: string, ship: string)
    ensures var r := Lookup(reg, ski, fp, ship);
            && (r == None <==> forall i | 0 <= i < |reg| :: !Named(reg[i], ski, fp, ship))
            && (forall i: nat :: r == Some(i) <==> FirstNamed(reg, ski, fp, ship, i))
  {
    var r := Lookup(reg, ski, fp, ship);
    forall i | 0 <= i < |reg| ensures Named(reg[i], ski, fp, ship) <==> Answers(reg[i], ski, fp, ship) {
      NamedAnswers(reg[i], ski, fp, ship);
    }
    hide Named, Answers, Lookup;
  }

  /** An entry that is found by one identifier carries it, and is no other device as far as is known. */
  lemma FoundFields(reg: seq<Entry>, ski: string, fp: string, ship: string, i: nat)
    requires Lookup(reg, ski, fp, ship) == Some(i)
    ensures i < |reg|
    ensures ski != "" && reg[i].ski != "" ==> reg[i].ski == ski
    ensures fp != "" && reg[i].fingerprint != "" ==> Upper(reg[i].fingerprint) == Upper(fp)
    ensures ship != "" && reg[i].shipId != "" ==> reg[i].shipId == ship
    ensures fp == "" && ship == "" ==> reg[i].ski == ski != ""
    ensures ski == "" && ship == "" ==> fp != "" && Upper(reg[i].fingerprint) == Upper(fp)
    ensures ski == "" && fp == "" ==> reg[i].shipId == ship != ""
  {
    LookupExact(reg, ski, fp, ship);
    assert |Upper(fp)| == |fp| && |Upper(reg[i].fingerprint)| == |reg[i].fingerprint|;
    hide Lookup, Upper;
  }

  /** A candidate matches an entry exactly when one of its identifiers alone would find it. */
  lemma MatchesExact(reg: seq<Entry>, cand: Entry, i: nat)
    ensures i in Matches(reg, cand) <==>
              && i < |reg|
              && (|| Lookup([reg[i]], cand.ski, "", "").Some?
                  || Lookup([reg[i]], "", cand.fingerprint, "").Some?
                  || Lookup([reg[i]], "", "", cand.shipId).Some?)
  {
    if i < |reg| {
      var e := reg[i];
      assert Upper("") == "" && [e][0] == e;
      LookupExact([e], cand.ski, "", "");
      LookupExact([e], "", cand.fingerprint, "");
      LookupExact([e], "", "", cand.shipId);
      assert Share(cand, e) <==> Named(e, cand.ski, "", "") || Named(e, "", cand.fingerprint, "") || Named(e, "", "", cand.shipId);
      if Share(cand, e) { MatchesAll(reg, cand, i); }
    }
  }

  // ---------------------------------------------------------------- what becomes of the fields

  /** The place of the entry that matches are folded into: the first trusted match, or else the first. */
  predicate FirstMatch(reg: seq<Entry>, cand: Entry, h: nat) {
    && h < |reg| && Share(cand, reg[h])
    && forall j | 0 <= j < |reg| && j != h && Share(cand, reg[j]) ::
         if reg[h].trusted == reg[j].trusted then h < j else reg[h].trusted
  }

  lemma {:induction false} CanonicalFirst(reg: seq<Entry>, ms: seq<nat>)
    requires ms != [] && forall k | 0 <= k < |ms| :: ms[k] < |reg|
    requires forall j, k | 0 <= j < k < |ms| :: ms[j] < ms[k]
    ensures var c := Canonical(reg, ms);
            forall k | 0 <= k < |ms| && ms[k] != c :: if reg[c].trusted == reg[ms[k]].trusted then c < ms[k] else reg[c].trusted
  {
    if |ms| > 1 {
      var c := Canonical(reg, ms[1..]);
      CanonicalFirst(reg, ms[1..]);
      assert c in ms[1..];
      forall k | 0 < k < |ms| && ms[k] != c ensures if reg[c].trusted == reg[ms[k]].trusted then c < ms[k] else reg[c].trusted {
        assert ms[1..][k - 1] == ms[k];
      }
    }
  }

  /** Matches are folded into the first trusted one, or else into the first; without any the candidate is new. */
  lemma HomeExact(reg: seq<Entry>, cand: Entry)
    ensures Home(reg, cand) == |reg| <==> forall i | 0 <= i < |reg| :: !Share(cand, reg[i])
    ensures Home(reg, cand) < |reg| ==> FirstMatch(reg, cand, Home(reg, cand))
  {
    var ms := Matches(reg, cand);
    forall i | 0 <= i < |reg| && Share(cand, reg[i]) ensures i in ms { MatchesAll(reg, cand, i); }
    hide Share;
    if ms != [] { CanonicalFirst(reg, ms); }
  }

  /** The candidate and the other matches, in the order in which they are folded in. */
  function Others(reg: seq<Entry>, cand: Entry, h: nat): seq<Entry> {
    if reg == [] then [cand] else
    var n := |reg| - 1;
    Others(reg[..n], cand, h) + if n != h && Share(cand, reg[n]) then [reg[n]] else []
  }

  /** The first value that is given. */
  function FirstGiven(vs: seq<string>): string {
    if vs == [] then "" else if vs[0] != "" then vs[0] else FirstGiven(vs[1..])
  }

  function Address(e: Entry): string { e.ipv4 }

  lemma {:induction false} FirstGivenLast(vs: seq<string>, v: string)
    ensures FirstGiven(vs + [v]) == Or(FirstGiven(vs), v)
  {
    if vs != [] {
      FirstGivenLast(vs[1..], v);
      assert (vs + [v])[1..] == vs[1..] + [v];
    } else {
      assert FirstGiven([v][1..]) == "";
    }
  }

  lemma FieldLast(xs: seq<Entry>, e: Entry, key: Entry -> string)
    ensures Field(xs + [e], key) == Field(xs, key) + [key(e)]
  {
  }

  lemma FirstFieldLast(xs: seq<Entry>, e: Entry, key: Entry -> string)
    ensures FirstGiven(Field(xs + [e], key)) == Or(FirstGiven(Field(xs, key)), key(e))
  {
    FieldLast(xs, e, key);
    FirstGivenLast(Field(xs, key), key(e));
  }

  /** Every field is the first one given, along some entries. */
  predicate FromFirst(e: Entry, xs: seq<Entry>) {
    && e.ski == FirstGiven(Field(xs, SkiOf)) && e.fingerprint == FirstGiven(Field(xs, RawPrintOf))
    && e.shipId == FirstGiven(Field(xs, ShipOf)) && e.ipv4 == FirstGiven(Field(xs, Address))
  }

  lemma FromFirstMore(e: Entry, xs: seq<Entry>, b: Entry, r: Entry)
    requires FromFirst(e, xs) && Joins(e, b, r)
    ensures FromFirst(r, xs + [b])
  {
    FirstFieldLast(xs, b, SkiOf);
    FirstFieldLast(xs, b, RawPrintOf);
    FirstFieldLast(xs, b, ShipOf);
    FirstFieldLast(xs, b, Address);
    hide FirstGiven;
  }

  lemma FromFirstOne(e: Entry)
    ensures FromFirst(e, [e])
  {
    forall key: Entry -> string ensures FirstGiven(Field([e], key)) == key(e) {
      assert Field([e], key) == [key(e)] && [key(e)][1..] == [];
    }
  }

  lemma PrefixStep(reg: seq<Entry>, n: nat, cand: Entry, h: nat)
    requires n < |reg|
    ensures var more := Share(cand, reg[n]);
            && Matches(reg[..n + 1], cand) == (if more then Matches(reg[..n], cand) + [n] else Matches(reg[..n], cand))
            && Others(reg[..n + 1], cand, h)
               == (if more && n != h then Others(reg[..n], cand, h) + [reg[n]] else Others(reg[..n], cand, h))
  {
    var p := reg[..n + 1];
    assert p[..n] == reg[..n] && p[n] == reg[n] && |p| - 1 == n;
    hide Share;
  }

  lemma FoldLast(reg: seq<Entry>, ms: seq<nat>, m: nat, h: nat, e: Entry)
    requires m < |reg| && forall k | 0 <= k < |ms| :: ms[k] < |reg|
    ensures forall k | 0 <= k < |ms + [m]| :: (ms + [m])[k] < |reg|
    ensures FoldAll(reg, ms + [m], h, e) == if m == h then FoldAll(reg, ms, h, e) else FoldInto(FoldAll(reg, ms, h, e), reg[m])
  {
    assert (ms + [m])[..|ms|] == ms;
    hide FoldInto;
  }

  /** What the first n entries have contributed. */
  predicate FoldedSoFar(reg: seq<Entry>, n: nat, cand: Entry, h: nat)
    requires h < |reg| && n <= |reg|
  {
    var e := FoldAll(reg, Matches(reg[..n], cand), h, FoldInto(reg[h], cand));
    FromFirst(e, [reg[h]] + Others(reg[..n], cand, h)) && Normal(e)
  }

  lemma FoldedNone(reg: seq<Entry>, cand: Entry, h: nat)
    requires h < |reg| && Normal(reg[h]) && Normal(cand)
    ensures FoldedSoFar(reg, 0, cand, h)
  {
    assert reg[..0] == [];
    FoldJoins(reg[h], cand);
    hide FoldInto, FromFirst, Joins, Normal;
    FromFirstOne(reg[h]);
    FromFirstMore(reg[h], [reg[h]], cand, FoldInto(reg[h], cand));
  }

  lemma FoldedOneMore(reg: seq<Entry>, m: nat, cand: Entry, h: nat)
    requires h < |reg| && m < |reg| && Normal(reg[m]) && FoldedSoFar(reg, m, cand, h)
    ensures FoldedSoFar(reg, m + 1, cand, h)
  {
    hide FoldInto, FromFirst, Joins, Normal, Matches, Others, FoldAll, Share;
    PrefixStep(reg, m, cand, h);
    var base := FoldInto(reg[h], cand);
    var ms := Matches(reg[..m], cand);
    var before := [reg[h]] + Others(reg[..m], cand, h);
    if Share(cand, reg[m]) {
      FoldLast(reg, ms, m, h, base);
      if m != h {
        var d := FoldAll(reg, ms, h, base);
        FoldJoins(d, reg[m]);
        FromFirstMore(d, before, reg[m], FoldInto(d, reg[m]));
        assert [reg[h]] + Others(reg[..m + 1], cand, h) == before + [reg[m]];
      }
    }
  }

  lemma {:induction false} FoldedFromFirst(reg: seq<Entry>, n: nat, cand: Entry, h: nat)
    requires AllNormal(reg) && Normal(cand) && h < |reg| && n <= |reg|
    ensures FoldedSoFar(reg, n, cand, h)
    decreases n
  {
    hide FoldedSoFar, Normal;
    if n == 0 {
      FoldedNone(reg, cand, h);
    } else {
      FoldedFromFirst(reg, n - 1, cand, h);
      FoldedOneMore(reg, n - 1, cand, h);
    }
  }

  /**
   Each identifier and the address of a merged entry is the first one given, along the record merged into,
   the candidate, and the other matches in their order: no record ever gives up an identifier it had.
   */
  lemma MergedFields(reg: seq<Entry>, cand: Entry)
    requires AllNormal(reg) && Normal(cand) && Merge(reg, cand) != Failed && Home(reg, cand) < |reg|
    ensures var h := Home(reg, cand);
            FromFirst(Merge(reg, cand).entry, [reg[h]] + Others(reg, cand, h))
  {
    FoldedFromFirst(reg, |reg|, cand, Home(reg, cand));
    assert reg[..|reg|] == reg;
    hide FromFirst, Others, FoldAll, FoldInto, NoConflict;
  }
}
