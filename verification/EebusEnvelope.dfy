/**
 Splicing a SPINE payload into its SHIP envelope (ship/connection_serialization.go): payload and
 envelope are transformed independently, then a placeholder is replaced by the payload text.
 */
module EebusEnvelope {
  import opened EebusJson
  import opened EebusRoundTrip

  const PLACE: Field := Field("\"place\"", Leaf("\"holder\""))
  const HEADER: Json := Object([Field("\"protocolId\"", Leaf("\"ee1.0\""))])
  const PLACEHOLDER := "[{\"place\":\"holder\"}]"

  /** The SHIP data message around a payload. */
  function Envelope(payload: Json): Json {
    Object([Field("\"data\"", Object([Field("\"header\"", HEADER), Field("\"payload\"", payload)]))])
  }

  /** transformSpineDataIntoShipJson. */
  function TransformSpineData(spine: Json): string {
    ReplaceAll(JsonIntoEebusJson(Envelope(Object([PLACE]))), PLACEHOLDER, JsonIntoEebusJson(spine))
  }

  const FRONT1 := "{\"data\":"
  const FRONT2 := "{\"header\":"
  const FRONT3 := "{\"protocolId\":\"ee1.0\"}]},{\"payload\":"
  const BACK := "}]}"

  lemma {:induction false} SkipText(t: string, rest: string, rep: string)
    requires '[' !in t
    ensures ReplaceAll(t + rest, PLACEHOLDER, rep) == t + ReplaceAll(rest, PLACEHOLDER, rep)
  {
    hide ReplaceAll;
    if t == "" {
      assert t + rest == rest;
    } else {
      SkipText(t[1..], rest, rep);
      var s := t + rest;
      assert s[1..] == t[1..] + rest;
      if |PLACEHOLDER| <= |s| { assert s[..|PLACEHOLDER|][0] == t[0]; }
      assert t[0] in t;
      ReplaceMiss(s, PLACEHOLDER, rep);
    }
  }

  /** A bracket of the envelope itself is no placeholder: the text differs within five characters. */
  lemma SkipBracket(t: string, rest: string, rep: string)
    requires |t| > 3 && !(t[2] == 'p' && t[3] == 'l')
    ensures ReplaceAll("[" + (t + rest), PLACEHOLDER, rep) == "[" + ReplaceAll(t + rest, PLACEHOLDER, rep)
  {
    hide ReplaceAll;
    var s := "[" + (t + rest);
    assert s[3] == t[2] && s[4] == t[3];
    if |PLACEHOLDER| <= |s| {
      assert s[..|PLACEHOLDER|][3] == s[3] && s[..|PLACEHOLDER|][4] == s[4];
    }
    ReplaceMiss(s, PLACEHOLDER, rep);
    assert s[1..] == t + rest;
  }

  lemma SpliceAt(f1: string, f2: string, f3: string, back: string, rep: string)
    requires '[' !in f1 && '[' !in f2 && '[' !in f3 && '[' !in back
    requires |f2| > 3 && !(f2[2] == 'p' && f2[3] == 'l')
    requires |f3| > 3 && !(f3[2] == 'p' && f3[3] == 'l')
    ensures ReplaceAll(f1 + ("[" + (f2 + ("[" + (f3 + (PLACEHOLDER + back))))), PLACEHOLDER, rep)
         == f1 + ("[" + (f2 + ("[" + (f3 + (rep + back)))))
  {
    hide ReplaceAll;
    var rest := PLACEHOLDER + back;
    SkipText(f1, "[" + (f2 + ("[" + (f3 + rest))), rep);
    SkipBracket(f2, "[" + (f3 + rest), rep);
    SkipText(f2, "[" + (f3 + rest), rep);
    SkipBracket(f3, rest, rep);
    SkipText(f3, rest, rep);
    assert rest[..|PLACEHOLDER|] == PLACEHOLDER && rest[|PLACEHOLDER|..] == back;
    ReplaceHit(rest, PLACEHOLDER, rep);
    assert back == back + "";
    SkipText(back, "", rep);
    ReplaceEmpty(PLACEHOLDER, rep);
  }

  lemma PrintOne(f: Field, st: Style)
    ensures Print(Object([f]), st) == st.open + PrintField(f, st) + st.close
    ensures PrintFields([f], st) == PrintField(f, st)
  {
  }

  lemma PrintTwo(f: Field, g: Field, st: Style)
    ensures PrintFields([f, g], st) == PrintField(f, st) + st.sep + PrintField(g, st)
  {
  }

  lemma PlainTwo(f: Field, g: Field)
    requires Token(f.key) && Token(g.key) && Plain(f.value) && Plain(g.value)
    ensures PlainFields([f, g]) && PlainFields([f])
  {
  }

  /** The text of any one-field message whose value has two fields, cut into five pieces. */
  lemma TwoLevelText(k0: string, f: Field, g: Field)
    ensures Print(Unwrapped([Field(k0, Object([f, g]))]), EEBUS)
         == ("{" + k0 + ":") + (("[{" + f.key + ":") + (Print(f.value, EEBUS) + (("},{" + g.key + ":")
          + (Print(g.value, EEBUS) + "}]}"))))
  {
    var inner := Object([f, g]);
    PrintOne(Field(k0, inner), EEBUS);
    PrintTwo(f, g, EEBUS);
    assert Print(inner, EEBUS) == "[{" + (PrintField(f, EEBUS) + "},{" + PrintField(g, EEBUS)) + "}]";
    assert "}]" + "}" == "}]}";
  }

  lemma HeaderText()
    ensures Print(HEADER, EEBUS) == "[{\"protocolId\":\"ee1.0\"}]"
    ensures Print(Object([PLACE]), EEBUS) == PLACEHOLDER
  {
    PrintOne(Field("\"protocolId\"", Leaf("\"ee1.0\"")), EEBUS);
    PrintOne(PLACE, EEBUS);
  }

  lemma EnvelopePlain()
    ensures PlainFields(Envelope(Object([PLACE])).fields)
  {
    PlainTwo(Field("\"protocolId\"", Leaf("\"ee1.0\"")), PLACE);
    PlainTwo(PLACE, PLACE);
    var f, g := Field("\"header\"", HEADER), Field("\"payload\"", Object([PLACE]));
    PlainTwo(f, g);
    PlainTwo(Field("\"data\"", Object([f, g])), PLACE);
  }

  lemma FrontPieces()
    ensures "{" + "\"data\"" + ":" == FRONT1
    ensures "[{" + "\"header\"" + ":" == "[" + FRONT2
    ensures "[{\"protocolId\":\"ee1.0\"}]" + ("},{" + "\"payload\"" + ":") == "[" + FRONT3
  {
  }

  lemma Pieces(a: string, b: string, h: string, c: string, x: string, f1: string, f2: string, f3: string)
    requires a == f1 && b == "[" + f2 && h + c == "[" + f3
    ensures a + (b + (h + (c + x))) == f1 + ("[" + (f2 + ("[" + (f3 + x))))
  {
    assert h + (c + x) == (h + c) + x;
    assert ("[" + f3) + x == "[" + (f3 + x);
    var y := "[" + (f3 + x);
    assert b + y == "[" + (f2 + y);
  }

  /** The envelope around any payload text. */
  lemma EnvelopeText(payload: Json)
    ensures Print(Unwrapped(Envelope(payload).fields), EEBUS)
         == FRONT1 + ("[" + (FRONT2 + ("[" + (FRONT3 + (Print(payload, EEBUS) + BACK)))))
  {
    hide Print, FRONT1, FRONT2, FRONT3;
    TwoLevelText("\"data\"", Field("\"header\"", HEADER), Field("\"payload\"", payload));
    HeaderText();
    FrontPieces();
    Pieces("{" + "\"data\"" + ":", "[{" + "\"header\"" + ":", Print(HEADER, EEBUS), "},{" + "\"payload\"" + ":",
           Print(payload, EEBUS) + BACK, FRONT1, FRONT2, FRONT3);
  }

  // ---------------------------------------------------------------- reading the spliced message back

  lemma WireTwo(f: Field, g: Field)
    requires Token(f.key) && Token(g.key)
    requires Wire(f.value) && Wire(g.value) && Filled(f.value) && Filled(g.value)
    ensures WireFields([f, g]) && FilledFields([f, g]) && WireFields([f]) && FilledFields([f])
  {
  }

  lemma NormalTwo(f: Field, g: Field)
    ensures NormalFields([f]) == [Field(Scrub(f.key), Normal(f.value))]
    ensures NormalFields([f, g]) == [Field(Scrub(f.key), Normal(f.value)), Field(Scrub(g.key), Normal(g.value))]
  {
  }

  lemma EnvelopeIsWire(payload: Json)
    requires Wire(payload) && Filled(payload)
    ensures Envelope(payload).Object?
    ensures Wire(Unwrapped(Envelope(payload).fields)) && Filled(Unwrapped(Envelope(payload).fields))
  {
    var f, g := Field("\"header\"", HEADER), Field("\"payload\"", payload);
    WireTwo(Field("\"protocolId\"", Leaf("\"ee1.0\"")), PLACE);
    WireTwo(f, g);
    WireTwo(Field("\"data\"", Object([f, g])), PLACE);
  }

  lemma TransformedText(spine: Json)
    requires Plain(spine) && spine.Object?
    ensures TransformSpineData(spine) == Print(Unwrapped(Envelope(Unwrapped(spine.fields)).fields), EEBUS)
  {
    hide Print, FRONT1, FRONT2, FRONT3, PLACEHOLDER, ReplaceAll;
    EnvelopePlain();
    OutgoingText(Envelope(Object([PLACE])).fields);
    EnvelopeText(Object([PLACE]));
    HeaderText();
    OutgoingText(spine.fields);
    FrontSplices(JsonIntoEebusJson(spine));
    EnvelopeText(Unwrapped(spine.fields));
  }

  lemma FrontSplices(rep: string)
    ensures ReplaceAll(FRONT1 + ("[" + (FRONT2 + ("[" + (FRONT3 + (PLACEHOLDER + BACK))))), PLACEHOLDER, rep)
         == FRONT1 + ("[" + (FRONT2 + ("[" + (FRONT3 + (rep + BACK)))))
  {
    SpliceAt(FRONT1, FRONT2, FRONT3, BACK, rep);
  }

  lemma {:induction false} ContainsFirst(t: string, pat: string)
    requires |pat| > 0 && Contains(t, pat)
    ensures pat[0] in t
  {
    if t[..|pat|] == pat {
      assert t[0] == t[..|pat|][0];
    } else {
      ContainsFirst(t[1..], pat);
    }
  }

  lemma BracketFree(t: string)
    requires '[' !in t && '}' !in t
    ensures Scrub(t) == t
  {
    if !Inert(t) {
      if Contains(t, "[{") { ContainsFirst(t, "[{"); }
      if Contains(t, "[]") { ContainsFirst(t, "[]"); }
      if Contains(t, "},{") { ContainsFirst(t, "},{"); }
      if Contains(t, "}]") { ContainsFirst(t, "}]"); }
    }
    ScrubExact(t);
  }

  lemma ScrubsConstants()
    ensures Normal(HEADER) == HEADER && Scrub("\"data\"") == "\"data\""
    ensures Scrub("\"header\"") == "\"header\"" && Scrub("\"payload\"") == "\"payload\""
  {
    hide Scrub;
    BracketFree("\"protocolId\"");
    BracketFree("\"ee1.0\"");
    BracketFree("\"data\"");
    BracketFree("\"header\"");
    BracketFree("\"payload\"");
    NormalTwo(Field("\"protocolId\"", Leaf("\"ee1.0\"")), PLACE);
  }

  lemma EnvelopeNormal(payload: Json)
    ensures Normal(Unwrapped(Envelope(payload).fields)) == Envelope(Normal(payload))
  {
    hide Scrub;
    var f, g := Field("\"header\"", HEADER), Field("\"payload\"", payload);
    ScrubsConstants();
    NormalTwo(f, g);
    NormalTwo(Field("\"data\"", Object([f, g])), PLACE);
  }

  lemma EnvelopePrint(payload: Json, front: string)
    requires front == "{" + "\"data\"" + ":" + "{" + PrintField(Field("\"header\"", HEADER), STANDARD) + "," + "\"payload\"" + ":"
    ensures Print(Envelope(payload), STANDARD) == front + Print(payload, STANDARD) + "}}"
  {
    hide PrintField;
    var f, g := Field("\"header\"", HEADER), Field("\"payload\"", payload);
    var inner := Object([f, g]);
    PrintTwo(f, g, STANDARD);
    PrintOne(Field("\"data\"", inner), STANDARD);
    FieldText(Field("\"data\"", inner));
    FieldText(g);
    assert "}" + "}" == "}}";
  }

  lemma FieldText(f: Field)
    ensures PrintField(f, STANDARD) == f.key + ":" + Print(f.value, STANDARD)
  {
  }

  lemma EnvelopeInjective(a: Json, b: Json)
    requires Weight(Print(a, STANDARD)) < Weight(Print(b, STANDARD))
    ensures Print(Envelope(a), STANDARD) != Print(Envelope(b), STANDARD)
  {
    hide Weight, Print, PrintField;
    var front := "{" + "\"data\"" + ":" + "{" + PrintField(Field("\"header\"", HEADER), STANDARD) + "," + "\"payload\"" + ":";
    EnvelopePrint(a, front);
    EnvelopePrint(b, front);
    Weigh3(front, Print(a, STANDARD), "}}");
    Weigh3(front, Print(b, STANDARD), "}}");
  }

  lemma SpliceReads(spine: Json, zeros: nat)
    requires Plain(spine) && spine.Object? && spine.fields != []
    ensures JsonFromEebusJson(TransformSpineData(spine) + Zeros(zeros)) == Print(Envelope(Normal(spine)), STANDARD)
  {
    hide Print, TransformSpineData, JsonFromEebusJson, Envelope;
    var payload := Unwrapped(spine.fields);
    TransformedText(spine);
    PlainIsWire(spine);
    EnvelopeIsWire(payload);
    var fields := Envelope(payload).fields;
    Incoming(Unwrapped(fields), zeros);
    EnvelopeNormal(payload);
  }

  /**
   The receiver of a spliced message reads the standard envelope around the normal form of the
   payload, whatever the number of top-level fields and even when the payload itself contains the
   placeholder; it reads the payload that was sent exactly when that payload survives.
   */
  lemma SpliceRoundTrip(spine: Json, zeros: nat)
    requires Plain(spine) && spine.Object? && spine.fields != []
    ensures JsonFromEebusJson(TransformSpineData(spine) + Zeros(zeros)) == Print(Envelope(Normal(spine)), STANDARD)
    ensures JsonFromEebusJson(TransformSpineData(spine) + Zeros(zeros)) == Print(Envelope(spine), STANDARD)
       <==> SurvivesFields(spine.fields)
  {
    hide Print, TransformSpineData, JsonFromEebusJson, Envelope, Normal, Weight;
    SpliceReads(spine, zeros);
    NormalExact(spine);
    if !SurvivesFields(spine.fields) {
      EnvelopeInjective(Normal(spine), spine);
    }
  }
}
