/**
 What the four textual replacements do to a printed EEBUS document.

 Each pass turns a document printed in one style into a document printed in the next style;
 after the last pass the style is standard JSON. Tokens are rewritten by the same passes, and
 an empty array comes out as an empty object: Normal says so, and RoundTripExact says exactly
 which documents survive unchanged.
 */
module EebusRoundTrip {
  import opened EebusJson

  function Before(p: Pass): Style {
    match p
    case OpenPass => EEBUS
    case SepPass => Style("{", "},{", "}]", "[]")
    case ClosePass => Style("{", ",", "}]", "[]")
    case HollowPass => Style("{", ",", "}", "[]")
  }

  function After(p: Pass): Style {
    match p
    case OpenPass => Before(SepPass)
    case SepPass => Before(ClosePass)
    case ClosePass => Before(HollowPass)
    case HollowPass => STANDARD
  }

  // ---------------------------------------------------------------- one pass over the markers

  lemma SkipOne(p: Pass, c: char, rest: string)
    requires c != Pat(p)[0]
    ensures Apply(p, [c] + rest) == [c] + Apply(p, rest)
  {
  }

  lemma Hit(p: Pass, rest: string)
    ensures Apply(p, Pat(p) + rest) == Rep(p) + Apply(p, rest)
  {
  }

  /** A first character of the pattern is kept when the second one does not follow. */
  lemma Miss(p: Pass, c: char, d: char, rest: string)
    requires d != Pat(p)[1]
    ensures Apply(p, [c] + ([d] + rest)) == [c] + Apply(p, [d] + rest)
  {
  }

  lemma OpenMarker(p: Pass, rest: string)
    ensures Apply(p, Before(p).open + rest) == After(p).open + Apply(p, rest)
  {
  }

  lemma SepMarker(p: Pass, rest: string)
    ensures Apply(p, Before(p).sep + rest) == After(p).sep + Apply(p, rest)
  {
    match p
    case OpenPass =>
      SkipOne(p, '{', rest);
      SkipOne(p, ',', "{" + rest);
      SkipOne(p, '}', "," + ("{" + rest));
      assert "},{" + rest == "}" + ("," + ("{" + rest));
    case SepPass => Hit(p, rest);
    case ClosePass => SkipOne(p, ',', rest);
    case HollowPass => SkipOne(p, ',', rest);
  }

  lemma CloseMarker(p: Pass, rest: string)
    ensures Apply(p, Before(p).close + rest) == After(p).close + Apply(p, rest)
  {
    if p == ClosePass {
      Hit(p, rest);
    } else if p == HollowPass {
      SkipOne(p, '}', rest);
    } else {
      SkipOne(p, ']', rest);
      assert "}]" + rest == "}" + ("]" + rest);
      if p == OpenPass { SkipOne(p, '}', "]" + rest); } else { Miss(p, '}', ']', rest); }
    }
  }

  lemma HollowMarker(p: Pass, rest: string)
    ensures Apply(p, Before(p).hollow + rest) == After(p).hollow + Apply(p, rest)
  {
    if p == HollowPass {
      Hit(p, rest);
    } else {
      SkipOne(p, ']', rest);
      assert "[]" + rest == "[" + ("]" + rest);
      if p == OpenPass { Miss(p, '[', ']', rest); } else { SkipOne(p, '[', "]" + rest); }
    }
  }

  lemma BracketMarker(p: Pass, rest: string)
    requires |rest| > 0 && rest[0] != ']' && (p == OpenPass ==> rest[0] != '{')
    ensures Apply(p, "[" + rest) == "[" + Apply(p, rest)
  {
    assert [rest[0]] + rest[1..] == rest;
    if p == OpenPass || p == HollowPass { Miss(p, '[', rest[0], rest[1..]); } else { SkipOne(p, '[', rest); }
  }

  lemma MarkerStarts(p: Pass, rest: string)
    ensures SafeAfter(p, Before(p).sep + rest) && SafeAfter(p, Before(p).close + rest)
    ensures |Before(p).close| > 0 && Before(p).close[0] == '}'
    ensures Apply(p, "") == "" && Apply(p, "}") == "}"
    ensures p != HollowPass ==> After(p).hollow == "[]"
    ensures After(HollowPass).hollow == "{}"
    ensures Before(p).hollow == "[]"
  {
  }

  // ---------------------------------------------------------------- one pass over a token

  predicate AllStructural(pat: string) {
    forall k | 0 <= k < |pat| :: Structural(pat[k])
  }

  /** An occurrence of a structural pattern cannot reach the last character of a token. */
  lemma NoStraddle(pat: string, t: string, rest: string)
    requires |t| > 0 && !Structural(t[|t| - 1]) && AllStructural(pat)
    requires |pat| <= |t + rest| && (t + rest)[..|pat|] == pat
    ensures |t| > |pat| && t[..|pat|] == pat
  {
    assert (t + rest)[|t| - 1] == t[|t| - 1];
    forall k | 0 <= k < |pat| ensures Structural((t + rest)[k]) {
      assert (t + rest)[..|pat|][k] == pat[k];
    }
    assert (t + rest)[..|pat|] == t[..|pat|];
  }

  lemma ReplaceHit(s: string, pat: string, rep: string)
    requires 0 < |pat| <= |s| && s[..|pat|] == pat
    ensures ReplaceAll(s, pat, rep) == rep + ReplaceAll(s[|pat|..], pat, rep)
  {
  }

  lemma ReplaceMiss(s: string, pat: string, rep: string)
    requires |pat| > 0 && |s| > 0
    requires |pat| <= |s| ==> s[..|pat|] != pat
    ensures ReplaceAll(s, pat, rep) == [s[0]] + ReplaceAll(s[1..], pat, rep)
  {
  }

  lemma StartsStructural(pat: string, t: string)
    requires 0 < |pat| <= |t| && t[..|pat|] == pat && AllStructural(pat)
    ensures Structural(t[0])
  {
  }

  lemma ReplaceEmpty(pat: string, rep: string)
    requires |pat| > 0
    ensures ReplaceAll("", pat, rep) == ""
  {
  }

  lemma {:induction false} ReplaceInToken(pat: string, rep: string, t: string, rest: string)
    requires |pat| > 0 && AllStructural(pat)
    requires |t| > 0 && !Structural(t[|t| - 1])
    ensures ReplaceAll(t + rest, pat, rep) == ReplaceAll(t, pat, rep) + ReplaceAll(rest, pat, rep)
    ensures |ReplaceAll(t, pat, rep)| > 0
    ensures var r := ReplaceAll(t, pat, rep); r[|r| - 1] == t[|t| - 1] && (!Structural(t[0]) ==> r[0] == t[0])
    decreases |t|
  {
    hide ReplaceAll, AllStructural;
    var n, s := |pat|, t + rest;
    if n <= |s| && s[..n] == pat {
      NoStraddle(pat, t, rest);
      ReplaceHit(s, pat, rep);
      ReplaceHit(t, pat, rep);
      ReplaceInToken(pat, rep, t[n..], rest);
      assert s[n..] == t[n..] + rest;
      assert Structural(t[0]) by { StartsStructural(pat, t); }
    } else {
      if n <= |t| { assert t[..n] == s[..n]; }
      ReplaceMiss(s, pat, rep);
      ReplaceMiss(t, pat, rep);
      assert s[1..] == t[1..] + rest;
      if |t| == 1 {
        ReplaceEmpty(pat, rep);
        assert t[1..] == "" && t[1..] + rest == rest;
      } else {
        ReplaceInToken(pat, rep, t[1..], rest);
      }
    }
  }

  lemma TokenText(p: Pass, t: string, rest: string)
    requires |t| > 0 && !Structural(t[|t| - 1])
    ensures Apply(p, t + rest) == Apply(p, t) + Apply(p, rest)
    ensures |Apply(p, t)| > 0 && Apply(p, t)[|Apply(p, t)| - 1] == t[|t| - 1]
    ensures !Structural(t[0]) ==> Apply(p, t)[0] == t[0]
  {
    ReplaceInToken(Pat(p), Rep(p), t, rest);
  }

  lemma TokenKept(p: Pass, t: string)
    requires Token(t)
    ensures Token(Apply(p, t))
  {
    TokenText(p, t, "");
  }

  // ---------------------------------------------------------------- one pass over a document

  /** Documents as they travel: unwrapped objects only at the top or as the value of a field. */
  predicate Wire(v: Json) {
    match v
    case Leaf(t) => Token(t)
    case Object(fs) => WireFields(fs)
    case Array(xs) => WireItems(xs)
    case Unwrapped(fs) => WireFields(fs)
  }

  predicate WireFields(fs: seq<Field>) {
    fs == [] || (Token(fs[0].key) && Wire(fs[0].value) && WireFields(fs[1..]))
  }

  predicate WireItems(xs: seq<Json>) {
    xs == [] || (Wire(xs[0]) && !xs[0].Unwrapped? && WireItems(xs[1..]))
  }

  /** What a pass does to the tree behind the text. */
  function Rewrite(p: Pass, v: Json): Json {
    match v
    case Leaf(t) => Leaf(Apply(p, t))
    case Object(fs) => Object(RewriteFields(p, fs))
    case Array(xs) => if xs == [] && p == HollowPass then Object([]) else Array(RewriteItems(p, xs))
    case Unwrapped(fs) => Unwrapped(RewriteFields(p, fs))
  }

  function RewriteFields(p: Pass, fs: seq<Field>): (r: seq<Field>)
    ensures |r| == |fs|
  {
    if fs == [] then [] else [Field(Apply(p, fs[0].key), Rewrite(p, fs[0].value))] + RewriteFields(p, fs[1..])
  }

  function RewriteItems(p: Pass, xs: seq<Json>): (r: seq<Json>)
    ensures |r| == |xs|
  {
    if xs == [] then [] else [Rewrite(p, xs[0])] + RewriteItems(p, xs[1..])
  }

  lemma {:induction false} RewriteIsWire(p: Pass, v: Json)
    requires Wire(v)
    ensures Wire(Rewrite(p, v)) && (Rewrite(p, v).Unwrapped? <==> v.Unwrapped?)
  {
    match v
    case Leaf(t) => TokenKept(p, t);
    case Object(fs) => RewriteFieldsIsWire(p, fs);
    case Array(xs) => RewriteItemsIsWire(p, xs);
    case Unwrapped(fs) => RewriteFieldsIsWire(p, fs);
  }

  lemma {:induction false} RewriteFieldsIsWire(p: Pass, fs: seq<Field>)
    requires WireFields(fs)
    ensures WireFields(RewriteFields(p, fs))
  {
    if fs != [] {
      TokenKept(p, fs[0].key);
      RewriteIsWire(p, fs[0].value);
      RewriteFieldsIsWire(p, fs[1..]);
      assert RewriteFields(p, fs)[1..] == RewriteFields(p, fs[1..]);
    }
  }

  lemma {:induction false} RewriteItemsIsWire(p: Pass, xs: seq<Json>)
    requires WireItems(xs)
    ensures WireItems(RewriteItems(p, xs))
  {
    if xs != [] {
      RewriteIsWire(p, xs[0]);
      RewriteItemsIsWire(p, xs[1..]);
      assert RewriteItems(p, xs)[1..] == RewriteItems(p, xs[1..]);
    }
  }

  /** What may follow the closing brace of an unwrapped object without being swallowed by a pattern. */
  predicate SafeAfter(p: Pass, rest: string) {
    rest == "" || rest[0] == '}' || (p != SepPass && rest[0] == ',')
  }

  lemma ItemsFirstChar(xs: seq<Json>, p: Pass)
    requires WireItems(xs) && xs != []
    ensures var t := PrintItems(xs, Before(p)); |t| > 0 && t[0] != ']' && (p == OpenPass ==> t[0] != '{')
  {
  }

  /**
   One pass over a printed document, whatever follows it: the text of the document in the style
   before the pass becomes the text of the rewritten document in the style after it.
   */
  lemma {:induction false} PassDocument(p: Pass, v: Json, rest: string)
    requires Wire(v)
    requires v.Unwrapped? ==> SafeAfter(p, rest)
    ensures Apply(p, Print(v, Before(p)) + rest) == Print(Rewrite(p, v), After(p)) + Apply(p, rest)
    decreases v
  {
    hide Apply, Before, After;
    match v
    case Leaf(t) => TokenText(p, t, rest);
    case Object(fs) =>
      if fs == [] {
        HollowMarker(p, rest);
      } else {
        var body := PrintFields(fs, Before(p));
        MarkerStarts(p, rest);
        assert Print(v, Before(p)) + rest == Before(p).open + (body + (Before(p).close + rest));
        OpenMarker(p, body + (Before(p).close + rest));
        PassFields(p, fs, Before(p).close + rest);
        CloseMarker(p, rest);
        assert Print(Rewrite(p, v), After(p)) + Apply(p, rest)
            == After(p).open + (PrintFields(RewriteFields(p, fs), After(p)) + (After(p).close + Apply(p, rest)));
      }
    case Array(xs) =>
      if xs == [] {
        HollowMarker(p, rest);
        MarkerStarts(p, rest);
      } else {
        var body := PrintItems(xs, Before(p));
        assert Print(v, Before(p)) + rest == "[" + (body + ("]" + rest));
        ItemsFirstChar(xs, p);
        BracketMarker(p, body + ("]" + rest));
        PassItems(p, xs, "]" + rest);
        SkipOne(p, ']', rest);
        assert Print(Rewrite(p, v), After(p)) + Apply(p, rest)
            == "[" + (PrintItems(RewriteItems(p, xs), After(p)) + ("]" + Apply(p, rest)));
      }
    case Unwrapped(fs) =>
      if fs == [] {
        assert Print(v, Before(p)) + rest == rest;
      } else {
        PassUnwrapped(p, fs, rest);
      }
  }

  lemma {:induction false} PassUnwrapped(p: Pass, fs: seq<Field>, rest: string)
    requires WireFields(fs) && fs != [] && SafeAfter(p, rest)
    ensures Apply(p, Print(Unwrapped(fs), Before(p)) + rest)
         == Print(Unwrapped(RewriteFields(p, fs)), After(p)) + Apply(p, rest)
    decreases fs, 1
  {
    hide Apply, Before, After;
    var body := PrintFields(fs, Before(p));
    assert Print(Unwrapped(fs), Before(p)) + rest == "{" + (body + ("}" + rest));
    SkipOne(p, '{', body + ("}" + rest));
    PassFields(p, fs, "}" + rest);
    if rest == "" {
      MarkerStarts(p, rest);
      assert "}" + rest == "}";
      assert Apply(p, "}" + rest) == "}" + Apply(p, rest);
    } else {
      assert rest == [rest[0]] + rest[1..];
      if Pat(p)[0] == '}' { Miss(p, '}', rest[0], rest[1..]); } else { SkipOne(p, '}', rest); }
    }
    assert Print(Unwrapped(RewriteFields(p, fs)), After(p)) + Apply(p, rest)
        == "{" + (PrintFields(RewriteFields(p, fs), After(p)) + ("}" + Apply(p, rest)));
  }

  lemma {:induction false} PassField(p: Pass, f: Field, tail: string)
    requires Token(f.key) && Wire(f.value) && SafeAfter(p, tail)
    ensures Apply(p, PrintField(f, Before(p)) + tail)
         == PrintField(Field(Apply(p, f.key), Rewrite(p, f.value)), After(p)) + Apply(p, tail)
    decreases f, 0
  {
    hide Apply, Before, After, SafeAfter, Print;
    var value := Print(f.value, Before(p));
    assert PrintField(f, Before(p)) + tail == f.key + ([':'] + (value + tail));
    TokenText(p, f.key, [':'] + (value + tail));
    SkipOne(p, ':', value + tail);
    PassDocument(p, f.value, tail);
  }

  lemma PrintFieldsCons(fs: seq<Field>, st: Style)
    requires |fs| > 1
    ensures PrintFields(fs, st) == PrintField(fs[0], st) + (st.sep + PrintFields(fs[1..], st))
  {
  }

  lemma RewriteFieldsCons(p: Pass, fs: seq<Field>)
    requires fs != []
    ensures var r := RewriteFields(p, fs);
            r[0] == Field(Apply(p, fs[0].key), Rewrite(p, fs[0].value)) && r[1..] == RewriteFields(p, fs[1..])
  {
  }

  lemma {:induction false} PassFields(p: Pass, fs: seq<Field>, rest: string)
    requires WireFields(fs) && fs != []
    requires rest != "" && rest[0] == '}'
    ensures Apply(p, PrintFields(fs, Before(p)) + rest) == PrintFields(RewriteFields(p, fs), After(p)) + Apply(p, rest)
    decreases fs, 0
  {
    hide Apply, Before, After, PrintField, Rewrite, RewriteFields, Wire;
    RewriteFieldsCons(p, fs);
    var r := RewriteFields(p, fs);
    if |fs| == 1 {
      PassField(p, fs[0], rest);
    } else {
      var more := PrintFields(fs[1..], Before(p)) + rest;
      PrintFieldsCons(fs, Before(p));
      PrintFieldsCons(r, After(p));
      hide PrintFields;
      assert PrintFields(r, After(p)) + Apply(p, rest)
          == PrintField(r[0], After(p)) + (After(p).sep + (PrintFields(r[1..], After(p)) + Apply(p, rest)));
      assert PrintFields(fs, Before(p)) + rest == PrintField(fs[0], Before(p)) + (Before(p).sep + more);
      MarkerStarts(p, more);
      PassField(p, fs[0], Before(p).sep + more);
      SepMarker(p, more);
      PassFields(p, fs[1..], rest);
    }
  }

  lemma {:induction false} PassItems(p: Pass, xs: seq<Json>, rest: string)
    requires WireItems(xs) && xs != []
    ensures Apply(p, PrintItems(xs, Before(p)) + rest) == PrintItems(RewriteItems(p, xs), After(p)) + Apply(p, rest)
    decreases xs, 0
  {
    hide Apply, Before, After;
    var tail := if |xs| == 1 then rest else "," + (PrintItems(xs[1..], Before(p)) + rest);
    assert PrintItems(xs, Before(p)) + rest == Print(xs[0], Before(p)) + tail;
    PassDocument(p, xs[0], tail);
    if |xs| > 1 {
      SkipOne(p, ',', PrintItems(xs[1..], Before(p)) + rest);
      PassItems(p, xs[1..], rest);
      assert RewriteItems(p, xs)[1..] == RewriteItems(p, xs[1..]);
    }
  }

  // ---------------------------------------------------------------- the four passes together

  function Scrub(t: string): string {
    Apply(HollowPass, Apply(ClosePass, Apply(SepPass, Apply(OpenPass, t))))
  }

  /** The document the receiver ends up with: scrubbed tokens, and empty arrays turned into empty objects. */
  function Normal(v: Json): Json {
    match v
    case Leaf(t) => Leaf(Scrub(t))
    case Object(fs) => Object(NormalFields(fs))
    case Array(xs) => if xs == [] then Object([]) else Array(NormalItems(xs))
    case Unwrapped(fs) => Object(NormalFields(fs))
  }

  function NormalFields(fs: seq<Field>): (r: seq<Field>)
    ensures |r| == |fs|
  {
    if fs == [] then [] else [Field(Scrub(fs[0].key), Normal(fs[0].value))] + NormalFields(fs[1..])
  }

  function NormalItems(xs: seq<Json>): (r: seq<Json>)
    ensures |r| == |xs|
  {
    if xs == [] then [] else [Normal(xs[0])] + NormalItems(xs[1..])
  }

  function RewriteAll(v: Json): Json {
    Rewrite(HollowPass, Rewrite(ClosePass, Rewrite(SepPass, Rewrite(OpenPass, v))))
  }

  function RewriteAllFields(fs: seq<Field>): (r: seq<Field>)
    ensures |r| == |fs|
  {
    RewriteFields(HollowPass, RewriteFields(ClosePass, RewriteFields(SepPass, RewriteFields(OpenPass, fs))))
  }

  function RewriteAllItems(xs: seq<Json>): (r: seq<Json>)
    ensures |r| == |xs|
  {
    RewriteItems(HollowPass, RewriteItems(ClosePass, RewriteItems(SepPass, RewriteItems(OpenPass, xs))))
  }

  /** No unwrapped object is empty: an empty one leaves no text at all behind. */
  predicate Filled(v: Json) {
    match v
    case Leaf(_) => true
    case Object(fs) => FilledFields(fs)
    case Array(xs) => FilledItems(xs)
    case Unwrapped(fs) => fs != [] && FilledFields(fs)
  }

  predicate FilledFields(fs: seq<Field>) {
    fs == [] || (Filled(fs[0].value) && FilledFields(fs[1..]))
  }

  predicate FilledItems(xs: seq<Json>) {
    xs == [] || (Filled(xs[0]) && FilledItems(xs[1..]))
  }

  lemma {:induction false} RewriteAllPrints(v: Json)
    requires Filled(v)
    ensures Print(RewriteAll(v), STANDARD) == Print(Normal(v), STANDARD)
  {
    hide Apply;
    match v
    case Leaf(_) =>
    case Object(fs) => RewriteAllFieldsPrints(fs);
    case Array(xs) => if xs != [] { RewriteAllItemsPrints(xs); }
    case Unwrapped(fs) => RewriteAllFieldsPrints(fs);
  }

  lemma {:induction false} RewriteAllFieldsPrints(fs: seq<Field>)
    requires FilledFields(fs)
    ensures PrintFields(RewriteAllFields(fs), STANDARD) == PrintFields(NormalFields(fs), STANDARD)
  {
    hide Apply;
    if fs != [] {
      RewriteAllPrints(fs[0].value);
      RewriteAllFieldsPrints(fs[1..]);
      assert RewriteAllFields(fs)[0] == Field(Scrub(fs[0].key), RewriteAll(fs[0].value));
      assert RewriteAllFields(fs)[1..] == RewriteAllFields(fs[1..]);
      assert NormalFields(fs)[1..] == NormalFields(fs[1..]);
    }
  }

  lemma {:induction false} RewriteAllItemsPrints(xs: seq<Json>)
    requires FilledItems(xs)
    ensures PrintItems(RewriteAllItems(xs), STANDARD) == PrintItems(NormalItems(xs), STANDARD)
  {
    hide Apply;
    if xs != [] {
      RewriteAllPrints(xs[0]);
      RewriteAllItemsPrints(xs[1..]);
      assert RewriteAllItems(xs)[0] == RewriteAll(xs[0]);
      assert RewriteAllItems(xs)[1..] == RewriteAllItems(xs[1..]);
      assert NormalItems(xs)[1..] == NormalItems(xs[1..]);
    }
  }

  lemma PassTop(p: Pass, w: Json)
    requires Wire(w)
    ensures Apply(p, Print(w, Before(p))) == Print(Rewrite(p, w), After(p)) && Wire(Rewrite(p, w))
  {
    PassDocument(p, w, "");
    RewriteIsWire(p, w);
    assert Print(w, Before(p)) + "" == Print(w, Before(p));
    assert Apply(p, "") == "";
  }

  function Zeros(n: nat): string {
    seq(n, _ => NUL)
  }

  lemma {:induction false} TrimTrailing(s: string, n: nat)
    requires |s| > 0 && s[0] != NUL && s[|s| - 1] != NUL
    ensures TrimNul(s + Zeros(n)) == s
  {
    var t := s + Zeros(n);
    if n == 0 {
      assert t == s;
    } else {
      TrimTrailing(s, n - 1);
      assert t[..|t| - 1] == s + Zeros(n - 1);
    }
  }

  /**
   Everything JsonFromEEBUSJson does to a message printed in the EEBUS style, also when the sender
   appended NUL bytes: the result is the standard print of the normal form.
   */
  lemma Incoming(w: Json, zeros: nat)
    requires Wire(w) && Filled(w) && w.Unwrapped?
    ensures JsonFromEebusJson(Print(w, EEBUS) + Zeros(zeros)) == Print(Normal(w), STANDARD)
  {
    TrimTrailing(Print(w, EEBUS), zeros);
    PassTop(OpenPass, w);
    var w1 := Rewrite(OpenPass, w);
    PassTop(SepPass, w1);
    var w2 := Rewrite(SepPass, w1);
    PassTop(ClosePass, w2);
    var w3 := Rewrite(ClosePass, w2);
    PassTop(HollowPass, w3);
    RewriteAllPrints(w);
  }

  // ---------------------------------------------------------------- outgoing text

  lemma {:induction false} OutgoingPrint(v: Json)
    requires Plain(v)
    ensures Print(ToEebus(v), STANDARD) == Print(v, EEBUS)
  {
    match v
    case Leaf(_) =>
    case Object(fs) => OutgoingFields(fs);
    case Array(xs) => OutgoingItems(xs);
  }

  lemma {:induction false} OutgoingFields(fs: seq<Field>)
    requires PlainFields(fs)
    ensures fs != [] ==> PrintItems(ToEebusFields(fs), STANDARD) == "{" + PrintFields(fs, EEBUS) + "}"
  {
    if fs != [] {
      OutgoingPrint(fs[0].value);
      OutgoingFields(fs[1..]);
      var items := ToEebusFields(fs);
      assert items[1..] == ToEebusFields(fs[1..]);
      var one := [Field(fs[0].key, ToEebus(fs[0].value))];
      assert items[0] == Object(one);
      assert PrintFields(one, STANDARD) == PrintField(one[0], STANDARD) == PrintField(fs[0], EEBUS);
    }
  }

  lemma {:induction false} OutgoingItems(xs: seq<Json>)
    requires PlainItems(xs)
    ensures PrintItems(ToEebusItems(xs), STANDARD) == PrintItems(xs, EEBUS)
  {
    if xs != [] {
      OutgoingPrint(xs[0]);
      OutgoingItems(xs[1..]);
      assert ToEebusItems(xs)[1..] == ToEebusItems(xs[1..]);
    }
  }

  lemma {:induction false} PlainIsWire(v: Json)
    requires Plain(v)
    ensures Wire(v) && Filled(v)
  {
    match v
    case Leaf(_) =>
    case Object(fs) => PlainFieldsAreWire(fs);
    case Array(xs) => PlainItemsAreWire(xs);
  }

  lemma {:induction false} PlainFieldsAreWire(fs: seq<Field>)
    requires PlainFields(fs)
    ensures WireFields(fs) && FilledFields(fs)
  {
    if fs != [] {
      PlainIsWire(fs[0].value);
      PlainFieldsAreWire(fs[1..]);
    }
  }

  lemma {:induction false} PlainItemsAreWire(xs: seq<Json>)
    requires PlainItems(xs)
    ensures WireItems(xs) && FilledItems(xs)
  {
    if xs != [] {
      PlainIsWire(xs[0]);
      PlainItemsAreWire(xs[1..]);
    }
  }

  /** The top level of an outgoing message is the EEBUS print without its outer brackets. */
  lemma OutgoingText(fs: seq<Field>)
    requires PlainFields(fs)
    ensures JsonIntoEebusJson(Object(fs)) == Print(Unwrapped(fs), EEBUS)
  {
    OutgoingPrint(Object(fs));
    if fs != [] {
      var body := PrintFields(fs, EEBUS);
      assert Print(Object(fs), EEBUS) == "[" + ("{" + body + "}") + "]";
    }
  }

  /** What arrives: for every document, the receiver reads the standard print of its normal form. */
  lemma RoundTrip(fs: seq<Field>, zeros: nat)
    requires PlainFields(fs) && fs != []
    ensures JsonFromEebusJson(JsonIntoEebusJson(Object(fs)) + Zeros(zeros)) == Print(Normal(Object(fs)), STANDARD)
  {
    OutgoingText(fs);
    PlainFieldsAreWire(fs);
    Incoming(Unwrapped(fs), zeros);
  }

  // ---------------------------------------------------------------- exactly which documents survive

  predicate Contains(s: string, pat: string) {
    |pat| <= |s| && (s[..|pat|] == pat || (|s| > 0 && Contains(s[1..], pat)))
  }

  /** A token that none of the four patterns occurs in. */
  predicate Inert(t: string) {
    !Contains(t, "[{") && !Contains(t, "},{") && !Contains(t, "}]") && !Contains(t, "[]")
  }

  /** Inert tokens throughout, and no empty array. */
  predicate Survives(v: Json) {
    match v
    case Leaf(t) => Inert(t)
    case Object(fs) => SurvivesFields(fs)
    case Array(xs) => xs != [] && SurvivesItems(xs)
    case Unwrapped(fs) => false
  }

  predicate SurvivesFields(fs: seq<Field>) {
    fs == [] || (Inert(fs[0].key) && Survives(fs[0].value) && SurvivesFields(fs[1..]))
  }

  predicate SurvivesItems(xs: seq<Json>) {
    xs == [] || (Survives(xs[0]) && SurvivesItems(xs[1..]))
  }

  /** Length plus number of opening brackets: every successful replacement makes it smaller. */
  function Weight(s: string): nat {
    if s == "" then 0 else (if s[0] == '[' then 2 else 1) + Weight(s[1..])
  }

  lemma {:induction false} WeightAdds(s: string, t: string)
    ensures Weight(s + t) == Weight(s) + Weight(t)
  {
    if s == "" {
      assert s + t == t;
    } else {
      WeightAdds(s[1..], t);
      assert (s + t)[1..] == s[1..] + t;
    }
  }

  lemma {:induction false} ReplaceExact(s: string, pat: string, rep: string)
    requires |pat| > 0 && Weight(rep) < Weight(pat)
    ensures !Contains(s, pat) ==> ReplaceAll(s, pat, rep) == s
    ensures Contains(s, pat) ==> Weight(ReplaceAll(s, pat, rep)) < Weight(s)
    decreases |s|
  {
    hide ReplaceAll;
    if |s| < |pat| {
      ReplaceShort(s, pat, rep);
    } else if s[..|pat|] == pat {
      ReplaceHit(s, pat, rep);
      ReplaceExact(s[|pat|..], pat, rep);
      assert s == pat + s[|pat|..];
      WeightAdds(pat, s[|pat|..]);
      WeightAdds(rep, ReplaceAll(s[|pat|..], pat, rep));
    } else {
      ReplaceMiss(s, pat, rep);
      ReplaceExact(s[1..], pat, rep);
      assert ([s[0]] + ReplaceAll(s[1..], pat, rep))[1..] == ReplaceAll(s[1..], pat, rep);
      assert s == [s[0]] + s[1..];
    }
  }

  lemma ReplaceShort(s: string, pat: string, rep: string)
    requires |s| < |pat|
    ensures ReplaceAll(s, pat, rep) == s
  {
  }

  lemma PassExact(p: Pass, s: string)
    ensures !Contains(s, Pat(p)) ==> Apply(p, s) == s
    ensures Contains(s, Pat(p)) ==> Weight(Apply(p, s)) < Weight(s)
  {
    ReplaceWeights(p);
    ReplaceExact(s, Pat(p), Rep(p));
  }

  lemma ReplaceWeights(p: Pass)
    ensures Weight(Rep(p)) < Weight(Pat(p))
  {
    match p
    case OpenPass => WeightAdds("[", "{"); assert "[{" == "[" + "{";
    case SepPass => WeightAdds("}", ",{"); WeightAdds(",", "{"); assert "},{" == "}" + ",{" && ",{" == "," + "{";
    case ClosePass => WeightAdds("}", "]"); assert "}]" == "}" + "]";
    case HollowPass =>
      WeightAdds("[", "]");
      WeightAdds("{", "}");
      assert "[]" == "[" + "]" && "{}" == "{" + "}";
  }

  lemma ScrubExact(t: string)
    ensures Inert(t) ==> Scrub(t) == t
    ensures !Inert(t) ==> Weight(Scrub(t)) < Weight(t)
  {
    hide Apply, Contains, Weight;
    PassExact(OpenPass, t);
    var t1 := Apply(OpenPass, t);
    PassExact(SepPass, t1);
    var t2 := Apply(SepPass, t1);
    PassExact(ClosePass, t2);
    PassExact(HollowPass, Apply(ClosePass, t2));
  }

  lemma {:induction false} NormalExact(v: Json)
    requires Plain(v)
    ensures Survives(v) ==> Normal(v) == v
    ensures !Survives(v) ==> Weight(Print(Normal(v), STANDARD)) < Weight(Print(v, STANDARD))
  {
    hide Weight, Scrub, Inert;
    match v
    case Leaf(t) => ScrubExact(t);
    case Object(fs) =>
      NormalFieldsExact(fs);
      Weigh3("{", PrintFields(fs, STANDARD), "}");
      Weigh3("{", PrintFields(NormalFields(fs), STANDARD), "}");
    case Array(xs) =>
      if xs == [] {
        HollowWeights();
      } else {
        NormalItemsExact(xs);
        Weigh3("[", PrintItems(xs, STANDARD), "]");
        Weigh3("[", PrintItems(NormalItems(xs), STANDARD), "]");
      }
  }

  lemma HollowWeights()
    ensures Weight("{}") < Weight("[]")
  {
  }

  lemma Weigh3(a: string, b: string, c: string)
    ensures Weight(a + b + c) == Weight(a) + Weight(b) + Weight(c)
  {
    WeightAdds(a + b, c);
    WeightAdds(a, b);
  }

  lemma {:induction false} NormalFieldsExact(fs: seq<Field>)
    requires PlainFields(fs)
    ensures SurvivesFields(fs) ==> NormalFields(fs) == fs
    ensures !SurvivesFields(fs) ==> Weight(PrintFields(NormalFields(fs), STANDARD)) < Weight(PrintFields(fs, STANDARD))
  {
    hide Weight, Scrub, Inert, Print, Normal, Survives, Plain;
    if fs != [] {
      var f, n := fs[0], NormalFields(fs)[0];
      ScrubExact(f.key);
      NormalExact(f.value);
      NormalFieldsExact(fs[1..]);
      assert NormalFields(fs)[1..] == NormalFields(fs[1..]);
      Weigh3(f.key, ":", Print(f.value, STANDARD));
      Weigh3(n.key, ":", Print(n.value, STANDARD));
      Weigh3(PrintField(f, STANDARD), ",", PrintFields(fs[1..], STANDARD));
      Weigh3(PrintField(n, STANDARD), ",", PrintFields(NormalFields(fs[1..]), STANDARD));
    }
  }

  lemma {:induction false} NormalItemsExact(xs: seq<Json>)
    requires PlainItems(xs)
    ensures SurvivesItems(xs) ==> NormalItems(xs) == xs
    ensures !SurvivesItems(xs) ==> Weight(PrintItems(NormalItems(xs), STANDARD)) < Weight(PrintItems(xs, STANDARD))
  {
    hide Weight, Print, Normal, Survives, Plain;
    if xs != [] {
      NormalExact(xs[0]);
      NormalItemsExact(xs[1..]);
      assert NormalItems(xs)[1..] == NormalItems(xs[1..]);
      Weigh3(Print(xs[0], STANDARD), ",", PrintItems(xs[1..], STANDARD));
      Weigh3(Print(Normal(xs[0]), STANDARD), ",", PrintItems(NormalItems(xs[1..]), STANDARD));
    }
  }

  /**
   The replacements undo the transform exactly for the non-empty objects that contain no empty
   array and no token in which one of the four patterns occurs.
   */
  lemma RoundTripExact(fs: seq<Field>)
    requires PlainFields(fs)
    ensures JsonFromEebusJson(JsonIntoEebusJson(Object(fs))) == Print(Object(fs), STANDARD)
       <==> fs != [] && SurvivesFields(fs)
  {
    if fs == [] {
      OutgoingText(fs);
      assert JsonFromEebusJson("") == "";
    } else {
      RoundTrip(fs, 0);
      assert JsonIntoEebusJson(Object(fs)) + Zeros(0) == JsonIntoEebusJson(Object(fs));
      NormalExact(Object(fs));
    }
  }

  /** NUL bytes around a text are cut off at both ends, and only there. */
  lemma {:induction false} TrimBothEnds(s: string, before: nat, after: nat)
    requires |s| > 0 && s[0] != NUL && s[|s| - 1] != NUL
    ensures TrimNul(Zeros(before) + s + Zeros(after)) == s
  {
    var t := Zeros(before) + s + Zeros(after);
    if before == 0 {
      assert t == s + Zeros(after);
      TrimTrailing(s, after);
    } else {
      TrimBothEnds(s, before - 1, after);
      assert t[0] == NUL && t[1..] == Zeros(before - 1) + s + Zeros(after);
    }
  }
}
