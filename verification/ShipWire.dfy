/**
 The one handshake message that carries free text, on its way through the texts of EebusJson: the access
 methods with the SHIP ID of the sender (ship/hs_access.go, ship/connection_messaging.go). What the four
 replacements make of the SHIP ID is what the receiver compares and stores, and a message in which the word
 "datagram" occurs never reaches the handshake.
 */
module ShipWire {
  import opened Basics
  import opened EebusJson
  import opened EebusRoundTrip
  import opened EebusEnvelope
  import opened ShipModel

  // ---------------------------------------------------------------- strings as JSON tokens

  function HexLower(n: int): (c: char)
    requires 0 <= n < 16
    ensures !Structural(c)
  {
    if n < 10 then '0' + n as char else 'a' + (n - 10) as char
  }

  /** How encoding/json writes one character inside a string. */
  function Escaped(c: char): (s: string)
    ensures |s| > 0 && (Structural(c) ==> s == [c])
    ensures !Structural(c) ==> forall k | 0 <= k < |s| :: !Structural(s[k])
  {
    if c == '\"' then "\\\""
    else if c == '\\' then "\\\\"
    else if c == '\n' then "\\n"
    else if c == '\r' then "\\r"
    else if c == '\t' then "\\t"
    else if c as int == 8 then "\\b"
    else if c as int == 12 then "\\f"
    else if c < ' ' then "\\u00" + [HexLower(c as int / 16), HexLower(c as int % 16)]
    else if c == '<' then "\\u003c"
    else if c == '>' then "\\u003e"
    else if c == '&' then "\\u0026"
    else if c as int == 0x2028 then "\\u2028"
    else if c as int == 0x2029 then "\\u2029"
    else [c]
  }

  function EscapeAll(s: string): string {
    if s == "" then "" else Escaped(s[0]) + EscapeAll(s[1..])
  }

  /** A string as a JSON token. */
  function Quote(s: string): string {
    "\"" + (EscapeAll(s) + "\"")
  }

  /** The part of an escape that tells which character it stands for. */
  lemma EscapesDiffer(c: char, d: char, x: string, y: string)
    requires Escaped(c) + x == Escaped(d) + y
    ensures c == d && x == y
  {
    var a, b := Escaped(c) + x, Escaped(d) + y;
    assert a[0] == Escaped(c)[0] && b[0] == Escaped(d)[0];
    if |Escaped(c)| > 1 && |Escaped(d)| > 1 {
      assert a[1] == Escaped(c)[1] && b[1] == Escaped(d)[1];
      if |Escaped(c)| == 6 && |Escaped(d)| == 6 {
        assert forall k | 0 <= k < 6 :: a[k] == Escaped(c)[k] && b[k] == Escaped(d)[k];
        assert a[2] == b[2] && a[3] == b[3] && a[4] == b[4] && a[5] == b[5];
      }
    }
    assert x == a[|Escaped(c)|..] && y == b[|Escaped(d)|..];
  }

  /** Different strings are written as different tokens, so the receiver reads the string that was written. */
  lemma {:induction false} EscapesUnambiguous(s: string, t: string)
    requires EscapeAll(s) == EscapeAll(t)
    ensures s == t
  {
    hide Escaped;
    if s != "" && t != "" {
      EscapesDiffer(s[0], t[0], EscapeAll(s[1..]), EscapeAll(t[1..]));
      EscapesUnambiguous(s[1..], t[1..]);
      assert s == [s[0]] + s[1..] && t == [t[0]] + t[1..];
    }
  }

  predicate NoMarker(t: string) {
    forall k | 0 <= k < |t| :: !Structural(t[k])
  }

  lemma {:induction false} SkipPlain(t: string, rest: string, pat: string, rep: string)
    requires |pat| > 0 && AllStructural(pat) && NoMarker(t)
    ensures ReplaceAll(t + rest, pat, rep) == t + ReplaceAll(rest, pat, rep)
  {
    hide ReplaceAll;
    if t == "" {
      assert t + rest == rest;
    } else {
      SkipPlain(t[1..], rest, pat, rep);
      var s := t + rest;
      assert s[0] == t[0] && s[1..] == t[1..] + rest;
      if |pat| <= |s| { assert s[..|pat|][0] == s[0]; }
      ReplaceMiss(s, pat, rep);
    }
  }

  lemma {:induction false} EscapePrefix(pat: string, s: string)
    requires AllStructural(pat)
    ensures EscapeAll(pat + s) == pat + EscapeAll(s)
  {
    hide EscapeAll;
    if pat == "" {
      assert pat + s == s;
    } else {
      var c, rest := pat[0], pat[1..];
      EscapePrefix(rest, s);
      EscapeOne(c, rest + s);
      assert pat + s == [c] + (rest + s);
      assert pat == [c] + rest;
    }
  }

  lemma EscapeOne(c: char, s: string)
    requires Structural(c)
    ensures EscapeAll([c] + s) == [c] + EscapeAll(s)
  {
    assert ([c] + s)[1..] == s;
  }

  /** A pattern at the start of the escaped text is one at the start of the text. */
  lemma {:induction false} PrefixEscaped(pat: string, s: string)
    requires AllStructural(pat)
    requires var e := EscapeAll(s) + "\""; |pat| <= |e| && e[..|pat|] == pat
    ensures |pat| <= |s| && s[..|pat|] == pat
  {
    if pat != "" {
      var e := EscapeAll(s) + "\"";
      assert e[0] == e[..|pat|][0] == pat[0];
      assert s != "" && Structural(s[0]);
      var f := EscapeAll(s[1..]) + "\"";
      assert e == [s[0]] + f;
      assert e[..|pat|] == [s[0]] + f[..|pat| - 1];
      assert f[..|pat| - 1] == pat[1..];
      PrefixEscaped(pat[1..], s[1..]);
      assert s[..|pat|] == [s[0]] + s[1..][..|pat| - 1];
    }
  }

  /** Patterns are made of characters that are not escaped, so replacing and escaping commute. */
  lemma {:induction false} ReplaceEscaped(s: string, pat: string, rep: string)
    requires |pat| > 0 && AllStructural(pat) && AllStructural(rep)
    ensures ReplaceAll(EscapeAll(s) + "\"", pat, rep) == EscapeAll(ReplaceAll(s, pat, rep)) + "\""
    decreases |s|
  {
    hide ReplaceAll, EscapeAll;
    var e := EscapeAll(s) + "\"";
    if |pat| <= |s| && s[..|pat|] == pat {
      var rest := s[|pat|..];
      ReplaceHitEscaped(s, pat, rep);
      ReplaceHit(s, pat, rep);
      ReplaceEscaped(rest, pat, rep);
      EscapePrefix(rep, ReplaceAll(rest, pat, rep));
    } else if s == "" {
      ReplaceEmpty(pat, rep);
      SkipPlain("\"", "", pat, rep);
      EscapedEmpty();
    } else {
      if |pat| <= |e| && e[..|pat|] == pat { PrefixEscaped(pat, s); }
      ReplaceMiss(s, pat, rep);
      ReplaceEscaped(s[1..], pat, rep);
      ReplaceMissEscaped(s, pat, rep);
      EscapeHead(s[0], ReplaceAll(s[1..], pat, rep));
    }
  }

  lemma EscapedEmpty()
    ensures EscapeAll("") + "\"" == "\"" + ""
  {
  }

  lemma EscapeHead(c: char, r: string)
    ensures EscapeAll([c] + r) == Escaped(c) + EscapeAll(r)
  {
    assert ([c] + r)[1..] == r;
  }

  lemma ReplaceHitEscaped(s: string, pat: string, rep: string)
    requires 0 < |pat| <= |s| && s[..|pat|] == pat && AllStructural(pat)
    ensures ReplaceAll(EscapeAll(s) + "\"", pat, rep) == rep + ReplaceAll(EscapeAll(s[|pat|..]) + "\"", pat, rep)
  {
    hide ReplaceAll, EscapeAll;
    var rest := s[|pat|..];
    assert s == pat + rest;
    EscapePrefix(pat, rest);
    var e := EscapeAll(s) + "\"";
    assert e == pat + (EscapeAll(rest) + "\"");
    assert e[..|pat|] == pat && e[|pat|..] == EscapeAll(rest) + "\"";
    ReplaceHit(e, pat, rep);
  }

  lemma ReplaceMissEscaped(s: string, pat: string, rep: string)
    requires |pat| > 0 && AllStructural(pat) && s != ""
    requires var e := EscapeAll(s) + "\""; |pat| <= |e| ==> e[..|pat|] != pat
    ensures ReplaceAll(EscapeAll(s) + "\"", pat, rep) == Escaped(s[0]) + ReplaceAll(EscapeAll(s[1..]) + "\"", pat, rep)
  {
    hide ReplaceAll;
    var e := EscapeAll(s) + "\"";
    var f := EscapeAll(s[1..]) + "\"";
    assert e == Escaped(s[0]) + f;
    if Structural(s[0]) {
      ReplaceMiss(e, pat, rep);
      assert e[1..] == f;
    } else {
      SkipPlain(Escaped(s[0]), f, pat, rep);
    }
  }

  lemma QuotePass(p: Pass, s: string)
    ensures Apply(p, Quote(s)) == Quote(Apply(p, s))
  {
    SkipOne(p, '\"', EscapeAll(s) + "\"");
    ReplaceEscaped(s, Pat(p), Rep(p));
  }

  /** The replacements do to a string token what they do to the string. */
  lemma QuoteScrub(s: string)
    ensures Scrub(Quote(s)) == Quote(Scrub(s))
  {
    hide Apply, Quote;
    QuotePass(OpenPass, s);
    var s1 := Apply(OpenPass, s);
    QuotePass(SepPass, s1);
    var s2 := Apply(SepPass, s1);
    QuotePass(ClosePass, s2);
    QuotePass(HollowPass, Apply(ClosePass, s2));
  }

  // ---------------------------------------------------------------- the access methods message

  const METHODS_KEY := "\"accessMethods\""
  const ID_KEY := "\"id\""

  function MethodsField(id: string): Field {
    Field(METHODS_KEY, Object([Field(ID_KEY, Leaf(Quote(id)))]))
  }

  /** The text that is sent. */
  function MethodsText(id: string): string {
    JsonIntoEebusJson(Object([MethodsField(id)]))
  }

  const DATAGRAM := "datagram"

  /** hasSpineDatagram for the access methods. */
  predicate TakenForSpine(id: string) {
    Contains(MethodsText(id), DATAGRAM)
  }

  /** The SHIP ID that the receiver reads, if it reads the message at all. */
  function ArrivingId(id: string): Option<string> {
    if TakenForSpine(id) then None else Some(Scrub(id))
  }

  /** What the handshake of the receiver gets of a message, if anything. The other messages hold no free text. */
  function Arrives(m: Message): Option<Message> {
    match m
    case AccessMethodsMessage(Some(id)) =>
      var arriving := ArrivingId(id);
      if arriving == None then None else Some(AccessMethodsMessage(arriving))
    case _ => Some(m)
  }

  /** Only a SHIP ID is ever changed. */
  lemma ArrivesAlike(m: Message)
    requires Arrives(m).Some?
    ensures Arrives(m) == Some(m) || (m.AccessMethodsMessage? && Arrives(m).value.AccessMethodsMessage?)
  {
  }

  lemma MethodsPlain(id: string)
    ensures PlainFields([MethodsField(id)])
  {
    var f := Field(ID_KEY, Leaf(Quote(id)));
    PlainTwo(f, f);
    PlainTwo(MethodsField(id), f);
  }

  lemma MethodsNormal(id: string)
    ensures NormalFields([MethodsField(id)]) == [MethodsField(Scrub(id))]
  {
    hide Scrub, Quote;
    QuoteScrub(id);
    KeysKept();
    var f := Field(ID_KEY, Leaf(Quote(id)));
    NormalTwo(f, f);
    NormalTwo(MethodsField(id), f);
  }

  lemma KeysKept()
    ensures Scrub(METHODS_KEY) == METHODS_KEY && Scrub(ID_KEY) == ID_KEY
  {
    hide Scrub;
    Untouched(METHODS_KEY);
    Untouched(ID_KEY);
  }

  lemma {:induction false} ContainsChar(t: string, pat: string, k: nat)
    requires k < |pat| && Contains(t, pat)
    ensures pat[k] in t
  {
    if t[..|pat|] == pat {
      assert t[k] == t[..|pat|][k];
    } else {
      ContainsChar(t[1..], pat, k);
    }
  }

  lemma Untouched(t: string)
    requires '{' !in t && ']' !in t
    ensures Scrub(t) == t
  {
    hide Contains, Scrub;
    if Contains(t, "[{") { ContainsChar(t, "[{", 1); }
    if Contains(t, "[]") { ContainsChar(t, "[]", 1); }
    if Contains(t, "},{") { ContainsChar(t, "},{", 2); }
    if Contains(t, "}]") { ContainsChar(t, "}]", 1); }
    ScrubExact(t);
  }

  /**
   The receiver reads the access methods of the SHIP ID as the replacements leave it, whatever characters
   the SHIP ID is made of.
   */
  lemma MethodsRead(id: string, zeros: nat)
    ensures JsonFromEebusJson(MethodsText(id) + Zeros(zeros)) == Print(Object([MethodsField(Scrub(id))]), STANDARD)
  {
    hide JsonFromEebusJson, Print, Scrub;
    MethodsPlain(id);
    RoundTrip([MethodsField(id)], zeros);
    MethodsNormal(id);
  }

  // ---------------------------------------------------------------- the word "datagram"

  lemma NoPrefix(s: string, pat: string, k: nat)
    requires k < |s| && k < |pat| && s[k] !in pat
    ensures |pat| <= |s| ==> s[..|pat|] != pat
  {
    if |pat| <= |s| { assert s[..|pat|][k] == s[k] && pat[k] in pat; }
  }

  /** A character that is not in the pattern cuts the text in two. */
  lemma {:induction false} ContainsCut(a: string, c: char, b: string, pat: string)
    requires pat != "" && c !in pat
    ensures Contains(a + ([c] + b), pat) <==> Contains(a, pat) || Contains(b, pat)
  {
    var s := a + ([c] + b);
    if a == "" {
      assert s == [c] + b && s[1..] == b;
      NoPrefix(s, pat, 0);
    } else {
      ContainsCut(a[1..], c, b, pat);
      assert s[1..] == a[1..] + ([c] + b);
      if |a| < |pat| { NoPrefix(s, pat, |a|); }
      assert |pat| <= |a| ==> a[..|pat|] == s[..|pat|];
    }
  }

  const BEFORE_ID := "{\"accessMethods\":[{\"id\":"
  const AFTER_ID := "}]}"

  lemma OneLevelText(k0: string, g: Field)
    ensures Print(Unwrapped([Field(k0, Object([g]))]), EEBUS)
         == ("{" + k0 + ":" + ("[{" + g.key + ":")) + (Print(g.value, EEBUS) + "}]}")
  {
    var f := Field(k0, Object([g]));
    PrintOne(f, EEBUS);
    PrintOne(g, EEBUS);
    assert "}]" + "}" == "}]}";
  }

  lemma BeforeId()
    ensures "{" + METHODS_KEY + ":" + ("[{" + ID_KEY + ":") == BEFORE_ID
  {
  }

  lemma MethodsTextIs(id: string)
    ensures MethodsText(id) == BEFORE_ID + (Quote(id) + AFTER_ID)
  {
    hide Quote, Print, METHODS_KEY, ID_KEY, BEFORE_ID;
    MethodsPlain(id);
    OutgoingText([MethodsField(id)]);
    OneLevelText(METHODS_KEY, Field(ID_KEY, Leaf(Quote(id))));
    BeforeId();
    LeafText(Quote(id));
  }

  lemma LeafText(t: string)
    ensures Print(Leaf(t), EEBUS) == t
  {
  }

  /** The message is taken for SPINE data exactly when the word occurs in the SHIP ID as it is written in JSON. */
  lemma TakenExact(id: string)
    ensures TakenForSpine(id) <==> Contains(EscapeAll(id), DATAGRAM)
  {
    hide MethodsText, EscapeAll, Contains, BEFORE_ID, AFTER_ID;
    MethodsTextIs(id);
    NotInFrame();
    QuoteCuts();
    Framed(BEFORE_ID, EscapeAll(id), AFTER_ID, DATAGRAM);
  }

  lemma QuoteCuts()
    ensures '\"' !in DATAGRAM && DATAGRAM != ""
  {
  }

  lemma Framed(a: string, e: string, b: string, pat: string)
    requires pat != "" && '\"' !in pat && !Contains(a, pat) && !Contains(b, pat)
    ensures Contains(a + (("\"" + (e + "\"")) + b), pat) <==> Contains(e, pat)
  {
    hide Contains;
    ContainsCut(a, '\"', e + (['\"'] + b), pat);
    ContainsCut(e, '\"', b, pat);
    assert ("\"" + (e + "\"")) + b == ['\"'] + (e + (['\"'] + b));
  }

  lemma NotInFrame()
    ensures !Contains(BEFORE_ID, DATAGRAM) && !Contains(AFTER_ID, DATAGRAM)
  {
    hide Contains;
    if Contains(BEFORE_ID, DATAGRAM) { ContainsChar(BEFORE_ID, DATAGRAM, 4); }
    if Contains(AFTER_ID, DATAGRAM) { ContainsChar(AFTER_ID, DATAGRAM, 4); }
  }

  /** The SHIP ID arrives as it was sent exactly when no pattern occurs in it and not the word "datagram". */
  lemma ArrivesExact(id: string)
    ensures ArrivingId(id) == Some(id)
            <==> Inert(id) && !Contains(EscapeAll(id), DATAGRAM)
  {
    hide Contains, Scrub, Inert, TakenForSpine;
    TakenExact(id);
    ScrubExact(id);
  }

  /** Brackets in a SHIP ID come out as braces. */
  lemma BracketsChange()
    ensures ArrivingId("dev[]1") != Some("dev[]1")
  {
    ArrivesExact("dev[]1");
    var id := "dev[]1";
    assert id[3..][..2] == "[]";
    assert id[1..][1..][1..] == id[3..];
    assert Contains(id[3..], "[]");
    hide EscapeAll;
    assert Contains(id[1..][1..], "[]");
  }

  /** A SHIP ID with the word in it does not arrive at all. */
  lemma WordIsLost()
    ensures ArrivingId("datagram") == None
  {
    TakenExact(DATAGRAM);
    hide EscapeAll;
    EscapesNothing(DATAGRAM);
    assert DATAGRAM[..|DATAGRAM|] == DATAGRAM;
  }

  lemma {:induction false} EscapesNothing(s: string)
    requires forall k | 0 <= k < |s| :: 'a' <= s[k] <= 'z' || '0' <= s[k] <= '9'
    ensures EscapeAll(s) == s
  {
    if s != "" {
      EscapesNothing(s[1..]);
      assert Escaped(s[0]) == [s[0]];
      assert s == [s[0]] + s[1..];
    }
  }
}
