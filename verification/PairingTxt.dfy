/**
 The pairing record on the wire: TXT strings (mdns/mdns.go), parsing with folded keys (mdns/helper.go,
 section 6.4 of RFC 6763) and rebuilding the record.
 */
module PairingTxt {
  import opened Basics
  import opened Letters
  import opened PairingRecord

  /** The eleven fields in the order of the specification. */
  function Fields(t: Txt): (fs: seq<(string, string)>)
    ensures |fs| == 11
  {
    [("txtvers", t.txtVers), ("parType", t.parType), ("forId", t.forId), ("forPar", t.forPar), ("trustId", t.trustId),
     ("trustPar", t.trustPar), ("trustCurve", t.trustCurve), ("type", t.kind), ("trustNonce", t.trustNonce),
     ("alg", t.alg), ("digest", t.digest)]
  }

  /** The text that is signed: names and values, each closed by a semicolon. */
  function SignedText(fs: seq<(string, string)>): string {
    if fs == [] then "" else (fs[0].0 + "=" + fs[0].1 + ";") + SignedText(fs[1..])
  }

  lemma SignedMore(f: (string, string), fs: seq<(string, string)>)
    ensures SignedText([f] + fs) == (f.0 + "=" + f.1 + ";") + SignedText(fs)
  {
    assert ([f] + fs)[1..] == fs;
  }

  /** Five fields with their separators, grouped by separator or by field. */
  lemma Regrouped(k0: string, k1: string, k2: string, k3: string, k4: string, v: seq<string>, s: string, rest: string)
    requires |v| == 5
    ensures k0 + v[0] + (s + k1) + v[1] + (s + k2) + v[2] + (s + k3) + v[3] + (s + k4) + (v[4] + (s + rest))
         == (k0 + v[0] + s) + ((k1 + v[1] + s) + ((k2 + v[2] + s) + ((k3 + v[3] + s) + ((k4 + v[4] + s) + rest))))
  {
  }

  lemma Led(k0: string, k1: string, k2: string, k3: string, k4: string, v: seq<string>, s: string, rest: string)
    requires |v| == 5
    ensures s + (k0 + v[0] + (s + k1) + v[1] + (s + k2) + v[2] + (s + k3) + v[3] + (s + k4) + (v[4] + (s + rest)))
         == (s + k0) + v[0] + (s + k1) + v[1] + (s + k2) + v[2] + (s + k3) + v[3] + (s + k4) + (v[4] + (s + rest))
  {
  }

  lemma FiveFields(f: seq<(string, string)>, rest: seq<(string, string)>)
    requires |f| == 5
    ensures SignedText(f + rest)
         == (f[0].0 + "=" + f[0].1 + ";") + ((f[1].0 + "=" + f[1].1 + ";") + ((f[2].0 + "=" + f[2].1 + ";")
          + ((f[3].0 + "=" + f[3].1 + ";") + ((f[4].0 + "=" + f[4].1 + ";") + SignedText(rest)))))
  {
    var r4 := [f[4]] + rest;
    var r3 := [f[3]] + r4;
    var r2 := [f[2]] + r3;
    var r1 := [f[1]] + r2;
    assert f + rest == [f[0]] + r1;
    hide SignedText;
    SignedMore(f[0], r1);
    SignedMore(f[1], r2);
    SignedMore(f[2], r3);
    SignedMore(f[3], r4);
    SignedMore(f[4], rest);
  }

  /** The message is made of the first ten fields of the record, in the order and with the names of the wire. */
  lemma MessageIsWireText(t: Txt)
    ensures Message(t) == SignedText(Fields(t)[..10])
  {
    var front := [("txtvers", t.txtVers), ("parType", t.parType), ("forId", t.forId), ("forPar", t.forPar), ("trustId", t.trustId)];
    var back := [("trustPar", t.trustPar), ("trustCurve", t.trustCurve), ("type", t.kind), ("trustNonce", t.trustNonce),
                 ("alg", t.alg)];
    assert Fields(t)[..10] == front + back;
    hide SignedText, Message;
    BackText(t, back);
    FrontText(t, front, back);
  }

  lemma BackText(t: Txt, f: seq<(string, string)>)
    requires f == [("trustPar", t.trustPar), ("trustCurve", t.trustCurve), ("type", t.kind), ("trustNonce", t.trustNonce),
                   ("alg", t.alg)]
    ensures Tail(t) == ";" + SignedText(f)
  {
    FiveFields(f, []);
    assert SignedText([]) == "" && f + [] == f;
    BackNames();
    hide SignedText;
    var v := [t.trustPar, t.trustCurve, t.kind, t.trustNonce, t.alg];
    var empty := "";
    Regrouped("trustPar" + "=", "trustCurve" + "=", "type" + "=", "trustNonce" + "=", "alg" + "=", v, ";", empty);
    Led("trustPar" + "=", "trustCurve" + "=", "type" + "=", "trustNonce" + "=", "alg" + "=", v, ";", empty);
    hide Tail;
    TailJoined(";" + ("trustPar" + "="), ";" + ("trustCurve" + "="), ";" + ("type" + "="), ";" + ("trustNonce" + "="),
               ";" + ("alg" + "="), t);
  }

  lemma TailJoined(a: string, b: string, c: string, d: string, e: string, t: Txt)
    requires a == ";trustPar=" && b == ";trustCurve=" && c == ";type=" && d == ";trustNonce=" && e == ";alg="
    ensures Tail(t) == a + t.trustPar + b + t.trustCurve + c + t.kind + d + t.trustNonce + e + (t.alg + (";" + ""))
  {
  }

  lemma BackNames()
    ensures ";" + ("trustPar" + "=") == ";trustPar=" && ";" + ("trustCurve" + "=") == ";trustCurve="
    ensures ";" + ("type" + "=") == ";type=" && ";" + ("trustNonce" + "=") == ";trustNonce=" && ";" + ("alg" + "=") == ";alg="
  {
  }

  lemma FrontNames()
    ensures "txtvers" + "=" == "txtvers=" && ";" + ("parType" + "=") == ";parType=" && ";" + ("forId" + "=") == ";forId="
    ensures ";" + ("forPar" + "=") == ";forPar=" && ";" + ("trustId" + "=") == ";trustId="
  {
  }

  lemma FrontText(t: Txt, f: seq<(string, string)>, rest: seq<(string, string)>)
    requires f == [("txtvers", t.txtVers), ("parType", t.parType), ("forId", t.forId), ("forPar", t.forPar), ("trustId", t.trustId)]
    requires Tail(t) == ";" + SignedText(rest)
    ensures Message(t) == SignedText(f + rest)
  {
    FiveFields(f, rest);
    FrontNames();
    hide SignedText, Tail;
    var v := [t.txtVers, t.parType, t.forId, t.forPar, t.trustId];
    Regrouped("txtvers" + "=", "parType" + "=", "forId" + "=", "forPar" + "=", "trustId" + "=", v, ";", SignedText(rest));
    HeadJoined("txtvers" + "=", ";" + ("parType" + "="), ";" + ("forId" + "="), ";" + ("forPar" + "="), ";" + ("trustId" + "="), t);
  }

  lemma HeadJoined(a: string, b: string, c: string, d: string, e: string, t: Txt)
    requires a == "txtvers=" && b == ";parType=" && c == ";forId=" && d == ";forPar=" && e == ";trustId="
    ensures Message(t) == a + t.txtVers + b + t.parType + c + t.forId + d + t.forPar + e + (t.trustId + Tail(t))
  {
    hide Tail;
  }

  /** Fields without a value are left out. */
  function Entries(fs: seq<(string, string)>): seq<string> {
    if fs == [] then []
    else
      var f := fs[|fs| - 1];
      Entries(fs[..|fs| - 1]) + (if f.1 != "" then [f.0 + "=" + f.1] else [])
  }

  /** convertPairingTXTToArray. */
  method ConvertToArray(t: Txt) returns (txt: seq<string>)
    ensures txt == Entries(Fields(t))
  {
    txt := [];
    var fields := Fields(t);
    var i := 0;
    while i < |fields|
      invariant 0 <= i <= |fields|
      invariant txt == Entries(fields[..i])
    {
      assert fields[..i + 1][..i] == fields[..i];
      if fields[i].1 != "" { txt := txt + [fields[i].0 + "=" + fields[i].1]; }
      i := i + 1;
    }
    assert fields[..i] == fields;
  }

  /** strings.Cut at the first equals sign. */
  function Cut(s: string): Option<(string, string)> {
    if s == "" then None
    else if s[0] == '=' then Some(("", s[1..]))
    else
      match Cut(s[1..])
      case None => None
      case Some((k, v)) => Some(([s[0]] + k, v))
  }

  lemma {:induction false} CutField(key: string, value: string)
    requires forall i | 0 <= i < |key| :: key[i] != '='
    ensures Cut(key + "=" + value) == Some((key, value))
  {
    var s := key + "=" + value;
    if key == "" {
      assert s[1..] == value;
    } else {
      CutField(key[1..], value);
      assert s[1..] == key[1..] + "=" + value;
      assert key == [key[0]] + key[1..];
    }
  }

  /** parseTxt: nothing if two keys differ at most in case. */
  function Parse(txt: seq<string>): Option<map<string, string>> {
    if txt == [] then Some(map[])
    else
      match Parse(txt[..|txt| - 1])
      case None => None
      case Some(m) =>
        match Cut(txt[|txt| - 1])
        case None => Some(m)
        case Some((k, v)) => if Lower(k) in m then None else Some(m[Lower(k) := v])
  }

  method ParseTxt(txt: seq<string>) returns (r: Option<map<string, string>>)
    ensures r == Parse(txt)
  {
    var result: map<string, string> := map[];
    var i := 0;
    while i < |txt|
      invariant 0 <= i <= |txt|
      invariant Parse(txt[..i]) == Some(result)
    {
      assert txt[..i + 1][..i] == txt[..i];
      var cut := Cut(txt[i]);
      if cut.Some? {
        var key := Lower(cut.value.0);
        if key in result {
          ParseFails(txt, i + 1);
          return None;
        }
        result := result[key := cut.value.1];
      }
      i := i + 1;
    }
    assert txt[..i] == txt;
    r := Some(result);
  }

  lemma {:induction false} ParseFails(txt: seq<string>, i: nat)
    requires i <= |txt| && Parse(txt[..i]) == None
    ensures Parse(txt) == None
    decreases |txt|
  {
    if i < |txt| {
      assert txt[..|txt| - 1][..i] == txt[..i];
      ParseFails(txt[..|txt| - 1], i);
    } else {
      assert txt[..i] == txt;
    }
  }

  const KEYS: seq<string> := ["txtvers", "partype", "forid", "forpar", "trustid", "trustpar", "trustcurve", "type",
                              "trustnonce", "alg", "digest"]

  function Rebuilt(m: map<string, string>): Txt
    requires forall k | 0 <= k < |KEYS| :: KEYS[k] in m
  {
    assert KEYS[0] in m && KEYS[1] in m && KEYS[2] in m && KEYS[3] in m && KEYS[4] in m && KEYS[5] in m && KEYS[6] in m
        && KEYS[7] in m && KEYS[8] in m && KEYS[9] in m && KEYS[10] in m;
    Txt(m["txtvers"], m["partype"], m["forid"], m["forpar"], m["trustid"], m["trustpar"], m["trustcurve"], m["type"],
        m["trustnonce"], m["alg"], m["digest"])
  }

  /** The part of processShipPairingMdnsEntry that accepts a record. */
  function Process(m: map<string, string>): Option<Txt> {
    if exists k | 0 <= k < |KEYS| :: KEYS[k] !in m then None
    else
      var t := Rebuilt(m);
      if t.txtVers != "1" || !Ok(t) then None else Some(t)
  }

  // ---------------------------------------------------------------- the way over the wire

  /** The map of the fields that have a value, keys folded. */
  function FieldMap(fs: seq<(string, string)>): map<string, string> {
    if fs == [] then map[] else
    var f := fs[|fs| - 1];
    var m := FieldMap(fs[..|fs| - 1]);
    if f.1 == "" then m else m[Lower(f.0) := f.1]
  }

  predicate PlainKeys(fs: seq<(string, string)>) {
    && (forall i, j | 0 <= i < |fs| && 0 <= j < |fs[i].0| :: fs[i].0[j] != '=')
    && (forall i, j | 0 <= i < j < |fs| :: Lower(fs[i].0) != Lower(fs[j].0))
  }

  lemma {:induction false} FieldMapKeys(fs: seq<(string, string)>, k: string)
    ensures k in FieldMap(fs) <==> exists i | 0 <= i < |fs| :: Lower(fs[i].0) == k && fs[i].1 != ""
  {
    if fs != [] { FieldMapKeys(fs[..|fs| - 1], k); }
  }

  /** Fields with distinct plain keys parse to their map. */
  lemma {:induction false} EntriesParse(fs: seq<(string, string)>)
    requires PlainKeys(fs)
    ensures Parse(Entries(fs)) == Some(FieldMap(fs))
  {
    if fs != [] {
      var n := |fs| - 1;
      EntriesParse(fs[..n]);
      FieldMapKeys(fs[..n], Lower(fs[n].0));
      if fs[n].1 != "" {
        CutField(fs[n].0, fs[n].1);
        var txt := Entries(fs);
        assert txt[..|txt| - 1] == Entries(fs[..n]);
      } else {
        assert Entries(fs) == Entries(fs[..n]) + [] == Entries(fs[..n]);
      }
    }
  }

  lemma {:induction false} FieldMapAt(fs: seq<(string, string)>, i: nat)
    requires i < |fs| && PlainKeys(fs)
    ensures fs[i].1 != "" ==> Lower(fs[i].0) in FieldMap(fs) && FieldMap(fs)[Lower(fs[i].0)] == fs[i].1
    ensures fs[i].1 == "" ==> Lower(fs[i].0) !in FieldMap(fs)
  {
    var n := |fs| - 1;
    if i < n {
      FieldMapAt(fs[..n], i);
    } else {
      FieldMapKeys(fs[..n], Lower(fs[n].0));
    }
  }

  lemma KeysFold(t: Txt)
    ensures forall i | 0 <= i < 11 :: Lower(Fields(t)[i].0) == KEYS[i]
  {
  }

  lemma FieldKeysPlain(t: Txt)
    ensures PlainKeys(Fields(t))
  {
    KeysFold(t);
    KeysDiffer();
    var fs := Fields(t);
    forall i, j | 0 <= i < 11 && 0 <= j < |fs[i].0| ensures fs[i].0[j] != '=' {
      assert Lower(fs[i].0)[j] == KEYS[i][j];
      PlainKey(i);
    }
  }

  lemma PlainKey(i: nat)
    requires i < 11
    ensures forall j | 0 <= j < |KEYS[i]| :: KEYS[i][j] != '='
  {
  }

  lemma KeysDiffer()
    ensures forall i, j | 0 <= i < j < |KEYS| :: KEYS[i] != KEYS[j]
  {
  }

  /** A valid record has no empty field. */
  lemma OkHasValues(t: Txt)
    requires Ok(t)
    ensures forall i | 0 <= i < 11 :: Fields(t)[i].1 != ""
  {
  }

  lemma FieldsRebuild(t: Txt)
    requires forall i | 0 <= i < 11 :: Fields(t)[i].1 != ""
    ensures var m := FieldMap(Fields(t)); (forall k | 0 <= k < |KEYS| :: KEYS[k] in m) && Rebuilt(m) == t
  {
    var fs := Fields(t);
    FieldKeysPlain(t);
    KeysFold(t);
    forall i | 0 <= i < 11 ensures KEYS[i] in FieldMap(fs) && FieldMap(fs)[KEYS[i]] == fs[i].1 { FieldMapAt(fs, i); }
    hide FieldMap, Lower, PlainKeys;
    var m := FieldMap(fs);
    assert m[KEYS[0]] == t.txtVers && m[KEYS[1]] == t.parType && m[KEYS[2]] == t.forId && m[KEYS[3]] == t.forPar;
    assert m[KEYS[4]] == t.trustId && m[KEYS[5]] == t.trustPar && m[KEYS[6]] == t.trustCurve && m[KEYS[7]] == t.kind;
    assert m[KEYS[8]] == t.trustNonce && m[KEYS[9]] == t.alg && m[KEYS[10]] == t.digest;
  }

  /** Encoding a record, parsing it with folded keys and rebuilding it gives it back if valid, else nothing. */
  lemma WireRoundTrip(t: Txt)
    ensures Parse(Entries(Fields(t))).Some?
    ensures Process(Parse(Entries(Fields(t))).value) == if Ok(t) then Some(t) else None
  {
    var fs := Fields(t);
    FieldKeysPlain(t);
    EntriesParse(fs);
    if i :| 0 <= i < 11 && fs[i].1 == "" {
      KeysFold(t);
      FieldMapAt(fs, i);
      assert KEYS[i] !in FieldMap(fs);
      if Ok(t) { OkHasValues(t); }
    } else {
      FieldsRebuild(t);
    }
  }

  // ---------------------------------------------------------------- any list of strings

  /** A string is cut at its first equals sign, if it has one. */
  lemma {:induction false} CutExact(s: string, k: string, v: string)
    ensures Cut(s) == Some((k, v)) <==> s == k + "=" + v && '=' !in k
    ensures Cut(s) == None <==> '=' !in s
  {
    if s != "" {
      if s[0] == '=' {
        if k == "" { assert k + "=" + v == "=" + v; }
        assert s == "=" + s[1..];
      } else {
        CutExact(s[1..], if k == "" then k else k[1..], v);
        assert s == [s[0]] + s[1..];
        if k != "" { assert k == [k[0]] + k[1..] && k + "=" + v == [k[0]] + (k[1..] + "=" + v); }
      }
    }
  }

  /** The folded key of a string. */
  function KeyOf(item: string): Option<string> {
    var c := Cut(item);
    if c == None then None else Some(Lower(c.value.0))
  }

  predicate SameKey(a: string, b: string) {
    KeyOf(a).Some? && KeyOf(a) == KeyOf(b)
  }

  /**
   A list of strings is refused exactly when two of them have keys that differ at most in case. Otherwise
   every key has the value of the one string that carries it, and strings without an equals sign have none.
   */
  lemma {:induction false} ParseExact(txt: seq<string>)
    ensures Parse(txt) == None <==> exists i, j | 0 <= i < j < |txt| :: SameKey(txt[i], txt[j])
    ensures Parse(txt).Some? ==>
              var m := Parse(txt).value;
              && (forall i | 0 <= i < |txt| && KeyOf(txt[i]).Some? ::
                    KeyOf(txt[i]).value in m && m[KeyOf(txt[i]).value] == Cut(txt[i]).value.1)
              && (forall k | k in m :: exists i | 0 <= i < |txt| :: KeyOf(txt[i]) == Some(k))
  {
    hide Cut, Lower;
    if txt != [] {
      var n := |txt| - 1;
      var rest := txt[..n];
      ParseExact(rest);
      assert forall i | 0 <= i < n :: rest[i] == txt[i];
      if Parse(rest) == None {
        var i, j :| 0 <= i < j < |rest| && SameKey(rest[i], rest[j]);
        assert SameKey(txt[i], txt[j]);
      } else if Cut(txt[n]).Some? {
        var k := KeyOf(txt[n]).value;
        if k in Parse(rest).value {
          var i :| 0 <= i < |rest| && KeyOf(rest[i]) == Some(k);
          assert SameKey(txt[i], txt[n]);
        }
      }
    }
  }

  /** A map of elements is accepted as a record exactly when it gives a valid record all eleven values. */
  lemma ProcessExact(m: map<string, string>, t: Txt)
    ensures Process(m) == Some(t) <==>
              Ok(t) && forall i | 0 <= i < 11 :: KEYS[i] in m && m[KEYS[i]] == Fields(t)[i].1
  {
    hide Ok;
    if Ok(t) { OkVersion(t); }
    if forall k | 0 <= k < |KEYS| :: KEYS[k] in m { RebuiltFields(m); }
    if forall i | 0 <= i < 11 :: KEYS[i] in m && m[KEYS[i]] == Fields(t)[i].1 { SameFields(t, Rebuilt(m)); }
  }

  lemma OkVersion(t: Txt)
    requires Ok(t)
    ensures t.txtVers == "1"
  {
  }

  lemma RebuiltFields(m: map<string, string>)
    requires forall k | 0 <= k < |KEYS| :: KEYS[k] in m
    ensures forall i | 0 <= i < 11 :: Fields(Rebuilt(m))[i].1 == m[KEYS[i]]
  {
  }

  lemma SameFields(t: Txt, u: Txt)
    requires forall i | 0 <= i < 11 :: Fields(t)[i].1 == Fields(u)[i].1
    ensures t == u
  {
    var f, g := Fields(t), Fields(u);
    assert f[0].1 == g[0].1 && f[1].1 == g[1].1 && f[2].1 == g[2].1 && f[3].1 == g[3].1 && f[4].1 == g[4].1;
    assert f[5].1 == g[5].1 && f[6].1 == g[6].1 && f[7].1 == g[7].1 && f[8].1 == g[8].1 && f[9].1 == g[9].1;
    assert f[10].1 == g[10].1;
  }
}
