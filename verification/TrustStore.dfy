/**
 The trust store of the hub (hub/hub.go) on values: which entries a candidate matches, when identifiers
 conflict, how matching entries are folded into one, and how an entry is found again.
 */
module TrustStore {
  import opened Basics
  import opened Letters

  // ---------------------------------------------------------------- SKIs

  function NormalizeSki(s: string): (r: string)
    ensures NormalSki(r)
  {
    if s == "" then ""
    else if s[0] == ' ' || s[0] == '-' then NormalizeSki(s[1..])
    else [LowerChar(s[0])] + NormalizeSki(s[1..])
  }

  predicate NormalSki(s: string) {
    forall i | 0 <= i < |s| :: s[i] != ' ' && s[i] != '-' && !('A' <= s[i] <= 'Z')
  }

  lemma {:induction false} NormalizeKeeps(s: string)
    requires NormalSki(s)
    ensures NormalizeSki(s) == s
  {
    if s != "" {
      NormalizeKeeps(s[1..]);
      assert s == [s[0]] + s[1..];
    }
  }

  /** Among normalised SKIs, equality up to case is equality. */
  lemma NormalFold(a: string, b: string)
    requires NormalSki(a) && NormalSki(b) && EqualFold(a, b)
    ensures a == b
  {
  }

  // ---------------------------------------------------------------- entries

  datatype Entry = Entry(ski: string, fingerprint: string, shipId: string, ipv4: string,
                         trusted: bool, autoAccept: bool, addCu: bool)

  /** NewServiceDetails: a SKI, or both other identifiers. */
  function NewService(ski: string, fingerprint: string, shipId: string): Option<Entry> {
    if ski == "" && fingerprint == "" then None
    else if ski == "" && shipId == "" then None
    else Some(Entry(NormalizeSki(ski), fingerprint, shipId, "", false, false, false))
  }

  predicate Normal(e: Entry) {
    NormalSki(e.ski)
  }

  predicate Identified(e: Entry) {
    e.ski != "" || e.fingerprint != "" || e.shipId != ""
  }

  /** Two entries name a device in common: fingerprints up to case, the other two exactly. */
  predicate Share(a: Entry, b: Entry) {
    || (a.ski != "" && a.ski == b.ski)
    || (Upper(a.fingerprint) != "" && Upper(a.fingerprint) == Upper(b.fingerprint))
    || (a.shipId != "" && a.shipId == b.shipId)
  }

  predicate Clash(a: string, b: string) {
    a != "" && b != "" && !EqualFold(a, b)
  }

  /** Some identifier of the two is given in both and differs even up to case. */
  predicate Disagree(a: Entry, b: Entry) {
    Clash(a.ski, b.ski) || Clash(Upper(a.fingerprint), Upper(b.fingerprint)) || Clash(a.shipId, b.shipId)
  }

  function Or(a: string, b: string): string {
    if a == "" then b else a
  }

  /** foldInto. */
  function FoldInto(dst: Entry, src: Entry): Entry {
    Entry(if dst.ski == "" && src.ski != "" then NormalizeSki(src.ski) else dst.ski,
          Or(dst.fingerprint, src.fingerprint), Or(dst.shipId, src.shipId), Or(dst.ipv4, src.ipv4),
          dst.trusted || src.trusted, dst.autoAccept || src.autoAccept, dst.addCu || src.addCu)
  }

  // ---------------------------------------------------------------- mergeOrAddService

  /** The positions of the entries that match the candidate, in order. */
  function Matches(reg: seq<Entry>, cand: Entry): (ms: seq<nat>)
    ensures forall k | 0 <= k < |ms| :: ms[k] < |reg| && Share(cand, reg[ms[k]])
    ensures forall j, k | 0 <= j < k < |ms| :: ms[j] < ms[k]
  {
    if reg == [] then [] else
    var n := |reg| - 1;
    var rest := Matches(reg[..n], cand);
    if Share(cand, reg[n]) then rest + [n] else rest
  }

  /** No match is missed. */
  lemma {:induction false} MatchesAll(reg: seq<Entry>, cand: Entry, i: nat)
    requires i < |reg| && Share(cand, reg[i])
    ensures i in Matches(reg, cand)
  {
    var n := |reg| - 1;
    if i < n { MatchesAll(reg[..n], cand, i); }
  }

  /** The identifiers collected so far, checked against each match in turn. */
  predicate NoConflict(reg: seq<Entry>, ms: seq<nat>, ski: string, fp: string, ship: string)
    requires forall k | 0 <= k < |ms| :: ms[k] < |reg|
    decreases |ms|
  {
    ms == [] ||
    var m := reg[ms[0]];
    && !Clash(ski, m.ski) && !Clash(fp, Upper(m.fingerprint)) && !Clash(ship, m.shipId)
    && NoConflict(reg, ms[1..], Or(ski, m.ski), Or(fp, Upper(m.fingerprint)), Or(ship, m.shipId))
  }

  /** The first trusted match, or the first. */
  function Canonical(reg: seq<Entry>, ms: seq<nat>): (c: nat)
    requires ms != [] && forall k | 0 <= k < |ms| :: ms[k] < |reg|
    ensures c in ms
  {
    if reg[ms[0]].trusted then ms[0]
    else if |ms| == 1 then ms[0]
    else
      var c := Canonical(reg, ms[1..]);
      if reg[c].trusted then c else ms[0]
  }

  /** The matches other than the canonical one are folded in, in order. */
  function FoldAll(reg: seq<Entry>, ms: seq<nat>, c: nat, e: Entry): Entry
    requires forall k | 0 <= k < |ms| :: ms[k] < |reg|
  {
    if ms == [] then e
    else
      var d := FoldAll(reg, ms[..|ms| - 1], c, e);
      var m := ms[|ms| - 1];
      if m == c then d else FoldInto(d, reg[m])
  }

  /** The positions below n that stay: those that did not match, and the canonical one. */
  function Kept(ms: seq<nat>, c: nat, n: nat): (ks: seq<nat>)
    ensures forall k | 0 <= k < |ks| :: ks[k] < n && (ks[k] !in ms || ks[k] == c)
    ensures forall j, k | 0 <= j < k < |ks| :: ks[j] < ks[k]
  {
    if n == 0 then [] else
    var rest := Kept(ms, c, n - 1);
    if n - 1 !in ms || n - 1 == c then rest + [n - 1] else rest
  }

  /** Every position that stays has its place. */
  lemma {:induction false} KeptAt(ms: seq<nat>, c: nat, n: nat, i: nat) returns (k: nat)
    requires i < n && (i !in ms || i == c)
    ensures k < |Kept(ms, c, n)| && Kept(ms, c, n)[k] == i
  {
    if i == n - 1 {
      k := |Kept(ms, c, n - 1)|;
    } else {
      k := KeptAt(ms, c, n - 1, i);
    }
  }

  /** The elements at some positions. */
  function Select<T>(xs: seq<T>, ks: seq<nat>): (r: seq<T>)
    requires forall k | 0 <= k < |ks| :: ks[k] < |xs|
    ensures |r| == |ks| && forall k | 0 <= k < |ks| :: r[k] == xs[ks[k]]
  {
    seq(|ks|, k requires 0 <= k < |ks| => xs[ks[k]])
  }

  datatype Outcome =
    | Failed
    | Merged(registry: seq<Entry>, entry: Entry)

  function Folded(reg: seq<Entry>, cand: Entry): Entry
    requires Matches(reg, cand) != []
  {
    var ms := Matches(reg, cand);
    var c := Canonical(reg, ms);
    FoldAll(reg, ms, c, FoldInto(reg[c], cand))
  }

  function Merge(reg: seq<Entry>, cand: Entry): Outcome {
    var ms := Matches(reg, cand);
    if !Identified(cand) then Failed
    else if !NoConflict(reg, ms, cand.ski, Upper(cand.fingerprint), cand.shipId) then Failed
    else if ms == [] then Merged(reg + [cand], cand)
    else
      var c := Canonical(reg, ms);
      var e := Folded(reg, cand);
      Merged(Select(reg[c := e], Kept(ms, c, |reg|)), e)
  }

  // ---------------------------------------------------------------- ServiceForIdentifierFull

  predicate Contradicts(e: Entry, ski: string, fp: string, ship: string) {
    || (ski != "" && e.ski != "" && e.ski != ski)
    || (Upper(fp) != "" && Upper(e.fingerprint) != "" && Upper(e.fingerprint) != Upper(fp))
    || (ship != "" && e.shipId != "" && e.shipId != ship)
  }

  predicate Answers(e: Entry, ski: string, fp: string, ship: string) {
    && !Contradicts(e, ski, fp, ship)
    && ((ski != "" && e.ski == ski) || (Upper(fp) != "" && Upper(e.fingerprint) == Upper(fp)) || (ship != "" && e.shipId == ship))
  }

  /** The position of the first trusted entry that answers, or else of the first that does. */
  function Lookup(reg: seq<Entry>, ski: string, fp: string, ship: string): (r: Option<nat>)
    ensures r.Some? ==> r.value < |reg| && Answers(reg[r.value], ski, fp, ship)
    ensures r == None ==> forall i | 0 <= i < |reg| :: !Answers(reg[i], ski, fp, ship)
    ensures r.Some? && !reg[r.value].trusted ==> forall i | 0 <= i < |reg| && Answers(reg[i], ski, fp, ship) :: !reg[i].trusted
    ensures r.Some? ==> forall i | 0 <= i < r.value && Answers(reg[i], ski, fp, ship) :: reg[r.value].trusted && !reg[i].trusted
  {
    if reg == [] then None else
    var n := |reg| - 1;
    var r := Lookup(reg[..n], ski, fp, ship);
    if !Answers(reg[n], ski, fp, ship) then r
    else if r == None then Some(n)
    else if !reg[r.value].trusted && reg[n].trusted then Some(n)
    else r
  }
}
