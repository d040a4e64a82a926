/**
 The authenticated pairing record: its fields and their formats (api/shippairing.go), hexadecimal text, and
 the key and message of its digest (pairing/hmac.go; sections 5.4, 7.3 and 7.4 of the SHIP Pairing Service
 specification). HMAC-SHA256 itself is a function that is passed in.
 */
module PairingRecord {
  import opened Basics
  import opened Letters

  type Byte = b: int | 0 <= b < 256

  // ---------------------------------------------------------------- hexadecimal text

  predicate IsHexDigit(c: char) {
    '0' <= c <= '9' || 'A' <= c <= 'F' || 'a' <= c <= 'f'
  }

  function HexDigit(n: int): (c: char)
    requires 0 <= n < 16
    ensures '0' <= c <= '9' || 'A' <= c <= 'F'
  {
    if n < 10 then '0' + n as char else 'A' + (n - 10) as char
  }

  function HexValue(c: char): (n: int)
    requires IsHexDigit(c)
    ensures 0 <= n < 16
  {
    if c <= '9' then (c - '0') as int else if c <= 'F' then (c - 'A') as int + 10 else (c - 'a') as int + 10
  }

  /** bytesToHex. */
  function BytesToHex(bs: seq<Byte>): (s: string)
    ensures |s| == 2 * |bs|
    ensures IsUppercaseHex(s, 2 * |bs|)
  {
    if bs == [] then "" else [HexDigit(bs[0] / 16), HexDigit(bs[0] % 16)] + BytesToHex(bs[1..])
  }

  /** hex.DecodeString. */
  function HexDecode(s: string): Option<seq<Byte>> {
    if s == "" then Some([])
    else if |s| == 1 || !IsHexDigit(s[0]) || !IsHexDigit(s[1]) then None
    else
      match HexDecode(s[2..])
      case None => None
      case Some(rest) => Some([16 * HexValue(s[0]) + HexValue(s[1])] + rest)
  }

  predicate IsUppercaseHex(s: string, length: nat) {
    |s| == length && forall i | 0 <= i < |s| :: '0' <= s[i] <= '9' || 'A' <= s[i] <= 'F'
  }

  lemma DigitValue(n: int)
    requires 0 <= n < 16
    ensures HexValue(HexDigit(n)) == n
  {
  }

  lemma ValueDigit(c: char)
    requires '0' <= c <= '9' || 'A' <= c <= 'F'
    ensures HexDigit(HexValue(c)) == c
  {
  }

  lemma {:induction false} HexRoundTrip(bs: seq<Byte>)
    ensures HexDecode(BytesToHex(bs)) == Some(bs)
  {
    if bs != [] {
      var s := BytesToHex(bs);
      DigitValue(bs[0] / 16);
      DigitValue(bs[0] % 16);
      HexRoundTrip(bs[1..]);
      assert s[2..] == BytesToHex(bs[1..]);
      assert bs == [bs[0]] + bs[1..];
    }
  }

  lemma TwoDigits(hi: int, lo: int)
    requires 0 <= hi < 16 && 0 <= lo < 16
    ensures 0 <= 16 * hi + lo < 256 && (16 * hi + lo) / 16 == hi && (16 * hi + lo) % 16 == lo
  {
  }

  lemma HexPair(b: Byte, rest: seq<Byte>)
    ensures BytesToHex([b] + rest) == [HexDigit(b / 16), HexDigit(b % 16)] + BytesToHex(rest)
  {
  }

  /** The first two digits, and what follows. */
  lemma UppercaseHead(s: string, n: nat)
    requires n > 0 && IsUppercaseHex(s, 2 * n)
    ensures IsHexDigit(s[0]) && IsHexDigit(s[1]) && IsUppercaseHex(s[2..], 2 * (n - 1))
    ensures s == [HexDigit(HexValue(s[0])), HexDigit(HexValue(s[1]))] + s[2..]
    ensures HexDecode(s[2..]).Some? ==> HexDecode(s) == Some([16 * HexValue(s[0]) + HexValue(s[1])] + HexDecode(s[2..]).value)
  {
    hide HexValue, HexDigit;
    ValueDigit(s[0]);
    ValueDigit(s[1]);
    assert s == [s[0], s[1]] + s[2..];
  }

  lemma {:induction false} UppercaseDecodes(s: string, n: nat)
    requires IsUppercaseHex(s, 2 * n)
    ensures HexDecode(s).Some? && |HexDecode(s).value| == n && BytesToHex(HexDecode(s).value) == s
    decreases n
  {
    if n > 0 {
      hide HexDecode, BytesToHex, HexValue, HexDigit, IsUppercaseHex, IsHexDigit;
      UppercaseHead(s, n);
      UppercaseDecodes(s[2..], n - 1);
      TwoDigits(HexValue(s[0]), HexValue(s[1]));
      HexPair(16 * HexValue(s[0]) + HexValue(s[1]), HexDecode(s[2..]).value);
    }
  }

  // ---------------------------------------------------------------- the record

  datatype Txt = Txt(txtVers: string, parType: string, forId: string, forPar: string, trustId: string, trustPar: string,
                     trustCurve: string, kind: string, trustNonce: string, alg: string, digest: string)

  const HMAC_SHA256 := "hmacSha256"
  const FP_SHA256 := "fpSha256"
  const ADD_CU := "addCu"
  const SECP256R1 := "secp256r1"
  const BRAINPOOL_P256R1 := "brainpoolP256r1"
  const BRAINPOOL_P384R1 := "brainpoolP384r1"

  datatype Refusal =
    | BadVersion | UnsupportedAlgorithm | UnsupportedParType | UnsupportedType | UnsupportedCurve
    | EmptyForId | EmptyTrustId | BadForPar | BadTrustPar | BadNonce | BadDigest

  /** Validate: the first rule that is broken, if any. */
  function Validate(t: Txt): Option<Refusal> {
    if t.txtVers != "1" then Some(BadVersion)
    else if t.alg != HMAC_SHA256 then Some(UnsupportedAlgorithm)
    else if t.parType != FP_SHA256 then Some(UnsupportedParType)
    else if t.kind != ADD_CU then Some(UnsupportedType)
    else if t.trustCurve != SECP256R1 && t.trustCurve != BRAINPOOL_P256R1 && t.trustCurve != BRAINPOOL_P384R1
    then Some(UnsupportedCurve)
    else if TrimSpace(t.forId) == "" then Some(EmptyForId)
    else if TrimSpace(t.trustId) == "" then Some(EmptyTrustId)
    else if !IsUppercaseHex(t.forPar, 64) then Some(BadForPar)
    else if !IsUppercaseHex(t.trustPar, 64) then Some(BadTrustPar)
    else if !IsUppercaseHex(t.trustNonce, 32) then Some(BadNonce)
    else if !IsUppercaseHex(t.digest, 64) then Some(BadDigest)
    else None
  }

  predicate Ok(t: Txt) {
    Validate(t) == None
  }

  /** A record breaks one rule of its format. */
  predicate Breaks(t: Txt, r: Refusal) {
    match r
    case BadVersion => t.txtVers != "1"
    case UnsupportedAlgorithm => t.alg != "hmacSha256"
    case UnsupportedParType => t.parType != "fpSha256"
    case UnsupportedType => t.kind != "addCu"
    case UnsupportedCurve => t.trustCurve !in {"secp256r1", "brainpoolP256r1", "brainpoolP384r1"}
    case EmptyForId => forall i | 0 <= i < |t.forId| :: IsSpace(t.forId[i])
    case EmptyTrustId => forall i | 0 <= i < |t.trustId| :: IsSpace(t.trustId[i])
    case BadForPar => !IsUppercaseHex(t.forPar, 64)
    case BadTrustPar => !IsUppercaseHex(t.trustPar, 64)
    case BadNonce => !IsUppercaseHex(t.trustNonce, 32)
    case BadDigest => !IsUppercaseHex(t.digest, 64)
  }

  /** The order in which the rules are checked. */
  function Rank(r: Refusal): nat {
    match r
    case BadVersion => 0 case UnsupportedAlgorithm => 1 case UnsupportedParType => 2 case UnsupportedType => 3
    case UnsupportedCurve => 4 case EmptyForId => 5 case EmptyTrustId => 6 case BadForPar => 7 case BadTrustPar => 8
    case BadNonce => 9 case BadDigest => 10
  }

  lemma {:induction false} TrimmedEmpty(s: string)
    ensures TrimSpace(s) == "" <==> forall i | 0 <= i < |s| :: IsSpace(s[i])
    decreases |s|
  {
    if s != "" {
      var n := |s| - 1;
      if IsSpace(s[0]) {
        TrimmedEmpty(s[1..]);
        assert forall i | 0 < i < |s| :: s[i] == s[1..][i - 1];
      } else if IsSpace(s[n]) {
        TrimmedEmpty(s[..n]);
        assert s[..n][0] == s[0];
      }
    }
  }

  /** A record is refused for the first rule it breaks, in their order, and valid if it breaks none. */
  lemma ValidateExact(t: Txt, r: Refusal)
    ensures Ok(t) <==> forall q :: !Breaks(t, q)
    ensures Validate(t) == Some(r) <==> Breaks(t, r) && forall q | Rank(q) < Rank(r) :: !Breaks(t, q)
  {
    TrimmedEmpty(t.forId);
    TrimmedEmpty(t.trustId);
    hide TrimSpace, IsUppercaseHex, IsSpace;
    assert Ok(t) <==>
        && !Breaks(t, BadVersion) && !Breaks(t, UnsupportedAlgorithm) && !Breaks(t, UnsupportedParType)
        && !Breaks(t, UnsupportedType) && !Breaks(t, UnsupportedCurve) && !Breaks(t, EmptyForId) && !Breaks(t, EmptyTrustId)
        && !Breaks(t, BadForPar) && !Breaks(t, BadTrustPar) && !Breaks(t, BadNonce) && !Breaks(t, BadDigest);
  }

  // ---------------------------------------------------------------- the message

  function Head(t: Txt): string {
    "txtvers=" + t.txtVers + ";parType=" + t.parType + ";forId=" + t.forId + ";forPar=" + t.forPar + ";trustId="
  }

  function End(t: Txt): string {
    ";type=" + t.kind + ";trustNonce=" + t.trustNonce + ";alg=" + t.alg + ";"
  }

  function Tail(t: Txt): string {
    ";trustPar=" + t.trustPar + ";trustCurve=" + t.trustCurve + End(t)
  }

  /** constructMessage: ten fields in a fixed order; the digest is not among them. */
  function Message(t: Txt): string {
    Head(t) + t.trustId + Tail(t)
  }

  /** Equal sequences, cut at the same place from either side. */
  lemma CutFront(a: string, b: string, c: string, d: string)
    requires a + b == c + d && |a| == |c|
    ensures a == c && b == d
  {
    assert a == (a + b)[..|a|] && c == (c + d)[..|a|];
    assert b == (a + b)[|a|..] && d == (c + d)[|a|..];
  }

  lemma CutBack(a: string, b: string, c: string, d: string)
    requires a + b == c + d && |b| == |d|
    ensures a == c && b == d
  {
    assert |a| == |c| by { assert |a + b| == |c + d|; }
    CutFront(a, b, c, d);
  }

  /** A field of known length between the same text on both sides. */
  lemma FieldEqual(a: string, x: string, y: string, sep: string, rest: string, other: string)
    requires a + x + sep + rest == a + y + sep + other && |x| == |y|
    ensures x == y && rest == other
  {
    CutFront(a + x + sep, rest, a + y + sep, other);
    CutBack(a + x, sep, a + y, sep);
    CutFront(a, x, a, y);
  }

  lemma Regroup(a: string, x: string, sep: string, id: string, tail: string)
    ensures (a + x + sep) + id + tail == a + x + sep + (id + tail)
  {
  }

  function BeforeForPar(t: Txt): string {
    "txtvers=" + t.txtVers + ";parType=" + t.parType + ";forId=" + t.forId + ";forPar="
  }

  lemma HeadsEqual(t: Txt, u: Txt)
    requires Ok(t) && Ok(u) && t.forId == u.forId && Message(t) == Message(u)
    ensures t.forPar == u.forPar && t.trustId + Tail(t) == u.trustId + Tail(u)
  {
    var a := BeforeForPar(t);
    assert Head(t) == a + t.forPar + ";trustId=" && Head(u) == BeforeForPar(u) + u.forPar + ";trustId=";
    assert BeforeForPar(u) == a && |t.forPar| == |u.forPar|;
    var x, y, e, f := Tail(t), Tail(u), Message(t), Message(u);
    assert e == Head(t) + t.trustId + x && f == Head(u) + u.trustId + y;
    hide *;
    Regroup(a, t.forPar, ";trustId=", t.trustId, x);
    Regroup(a, u.forPar, ";trustId=", u.trustId, y);
    FieldEqual(a, t.forPar, u.forPar, ";trustId=", t.trustId + x, u.trustId + y);
  }

  lemma EndsEqual(t: Txt, u: Txt, a: string, b: string)
    requires Ok(t) && Ok(u) && a + End(t) == b + End(u)
    ensures t.trustNonce == u.trustNonce && a == b
  {
    CutBack(a, End(t), b, End(u));
    var x := ";type=" + ADD_CU + ";trustNonce=";
    var y := ";alg=" + HMAC_SHA256 + ";";
    assert End(t) == x + (t.trustNonce + y) && End(u) == x + (u.trustNonce + y);
    CutFront(x, t.trustNonce + y, x, u.trustNonce + y);
    CutFront(t.trustNonce, y, u.trustNonce, y);
  }

  /** No curve name is the end of another one's text, whatever precedes it. */
  lemma CurvesEqual(a: string, b: string, c: string, d: string)
    requires a + c == b + d
    requires c == SECP256R1 || c == BRAINPOOL_P256R1 || c == BRAINPOOL_P384R1
    requires d == SECP256R1 || d == BRAINPOOL_P256R1 || d == BRAINPOOL_P384R1
    ensures a == b && c == d
  {
    var n := |a + c|;
    assert (a + c)[n - 6] == c[|c| - 6] && (b + d)[n - 6] == d[|d| - 6];
    assert SECP256R1[3] == 'p' && BRAINPOOL_P256R1[9] == 'P' && BRAINPOOL_P384R1[9] == 'P';
    CutBack(a, c, b, d);
  }

  /**
   The signed message is unambiguous: two valid records for the same receiver with the same message agree
   in all ten signed fields, although the SHIP ID of the announcer is free text.
   */
  lemma MessageUnambiguous(t: Txt, u: Txt)
    requires Ok(t) && Ok(u) && t.forId == u.forId && Message(t) == Message(u)
    ensures t.(digest := "") == u.(digest := "")
  {
    HeadsEqual(t, u);
    TailGroups(t);
    TailGroups(u);
    EndsEqual(t, u, BeforeCurve(t) + t.trustCurve, BeforeCurve(u) + u.trustCurve);
    CurvesEqual(BeforeCurve(t), BeforeCurve(u), t.trustCurve, u.trustCurve);
    hide Message, Tail, End;
    PartsEqual(t, u);
  }

  function BeforeCurve(t: Txt): string {
    t.trustId + ";trustPar=" + t.trustPar + ";trustCurve="
  }

  lemma TailGroups(t: Txt)
    ensures t.trustId + Tail(t) == (BeforeCurve(t) + t.trustCurve) + End(t)
  {
  }

  lemma PartsEqual(t: Txt, u: Txt)
    requires Ok(t) && Ok(u)
    requires t.trustId + ";trustPar=" + t.trustPar + ";trustCurve=" == u.trustId + ";trustPar=" + u.trustPar + ";trustCurve="
    ensures t.trustId == u.trustId && t.trustPar == u.trustPar
  {
    CutBack(t.trustId + ";trustPar=" + t.trustPar, ";trustCurve=", u.trustId + ";trustPar=" + u.trustPar, ";trustCurve=");
    CutBack(t.trustId + ";trustPar=", t.trustPar, u.trustId + ";trustPar=", u.trustPar);
    CutBack(t.trustId, ";trustPar=", u.trustId, ";trustPar=");
  }

  function Digits(n: nat, c: char): (s: string)
    ensures |s| == n && forall i | 0 <= i < n :: s[i] == c
  {
    seq(n, i => c)
  }

  /** A record for a receiver and another receiver's SHIP ID with separators in it. */
  function Sample(forId: string, forPar: string, trustId: string): Txt {
    Txt("1", FP_SHA256, forId, forPar, trustId, Digits(64, 'C'), SECP256R1, ADD_CU, Digits(32, 'D'), HMAC_SHA256, Digits(64, 'E'))
  }

  const FOR_PAR := ";forPar="
  const TRUST_ID := ";trustId="

  lemma HeadOf(t: Txt, p: string)
    requires t.txtVers == "1" && t.parType == FP_SHA256 && p == "txtvers=1;parType=" + FP_SHA256 + ";forId="
    ensures Head(t) == p + t.forId + FOR_PAR + t.forPar + TRUST_ID
  {
  }

  /** A receiver, a fingerprint and an announcer, and then the same text with the receiver's part longer. */
  lemma Shift(p: string, x: string, q: string, a: string, r: string, y: string, b: string, z: string)
    ensures p + x + q + a + r + (y + q + b + r + z) == p + (x + q + a + r + y) + q + b + r + z
  {
  }

  lemma {:induction false} TrimKeepsText(s: string, k: nat)
    requires k < |s| && !IsSpace(s[k])
    ensures TrimSpace(s) != ""
    decreases |s|
  {
    if IsSpace(s[0]) {
      TrimKeepsText(s[1..], k - 1);
    } else if IsSpace(s[|s| - 1]) {
      TrimKeepsText(s[..|s| - 1], k);
    }
  }

  lemma SampleOk(forId: string, forPar: string, trustId: string)
    requires TrimSpace(forId) != "" && TrimSpace(trustId) != "" && IsUppercaseHex(forPar, 64)
    ensures Ok(Sample(forId, forPar, trustId))
  {
  }

  /** Receiver b is receiver a followed by a fingerprint field and the beginning of an announcer field. */
  predicate Extends(a: string, b: string) {
    && |b| >= |a| + 81 && b[..|a|] == a && b[|a|..|a| + 8] == FOR_PAR
    && IsUppercaseHex(b[|a| + 8..|a| + 72], 64) && b[|a| + 72..|a| + 81] == TRUST_ID
  }

  lemma Separated(x: string, a: string, y: string)
    requires |a| == 64
    ensures TrimSpace(x + FOR_PAR + a + TRUST_ID + y) != ""
  {
    var s := x + FOR_PAR + a + TRUST_ID + y;
    assert s == x + (FOR_PAR + (a + TRUST_ID + y)) && s[|x|] == ';';
    TrimKeepsText(s, |x|);
  }

  /** Two records that sign alike, for a receiver and one that extends it. */
  lemma SignAlike(x: string, y: string, z: string, a: string, b: string)
    requires TrimSpace(x) != "" && TrimSpace(z) != "" && IsUppercaseHex(a, 64) && IsUppercaseHex(b, 64)
    ensures var t := Sample(x, a, y + FOR_PAR + b + TRUST_ID + z);
            var u := Sample(x + FOR_PAR + a + TRUST_ID + y, b, z);
            Ok(t) && Ok(u) && Message(t) == Message(u)
  {
    var t := Sample(x, a, y + FOR_PAR + b + TRUST_ID + z);
    var u := Sample(x + FOR_PAR + a + TRUST_ID + y, b, z);
    Separated(y, b, z);
    Separated(x, a, y);
    SampleOk(t.forId, a, t.trustId);
    SampleOk(u.forId, b, u.trustId);
    var p := "txtvers=1;parType=" + FP_SHA256 + ";forId=";
    HeadOf(t, p);
    HeadOf(u, p);
    assert Tail(t) == Tail(u);
    Shift(p, x, FOR_PAR, a, TRUST_ID, y, b, z);
    hide Ok, Head, Tail;
  }

  /** The text of a message after the receiver: the fingerprint field, and the rest from the announcer on. */
  lemma AfterReceiver(t: Txt, p: string)
    requires Ok(t) && p == "txtvers=1;parType=" + FP_SHA256 + ";forId="
    ensures Message(t) == p + (t.forId + (FOR_PAR + t.forPar + TRUST_ID + (t.trustId + Tail(t))))
  {
    HeadOf(t, p);
    hide Head, Tail, Ok;
    var h := p + t.forId + FOR_PAR + t.forPar + TRUST_ID;
    assert h + t.trustId + Tail(t) == p + (t.forId + (FOR_PAR + t.forPar + TRUST_ID + (t.trustId + Tail(t))));
  }

  /** Fields a and b in front of two texts that are shifted against each other. */
  lemma Shifted(x: string, a: string, r: string, y: string, b: string, q: string)
    requires x + (FOR_PAR + a + TRUST_ID + r) == y + (FOR_PAR + b + TRUST_ID + q)
    requires IsUppercaseHex(a, 64) && |b| == 64 && |x| < |y|
    ensures Extends(x, y)
  {
    var f := FOR_PAR + a + TRUST_ID;
    var s, w := f + r, FOR_PAR + b + TRUST_ID + q;
    var d := |y| - |x|;
    assert (x + s)[|y|] == (y + w)[|y|] == ';' && (x + s)[|y| + 1] == (y + w)[|y| + 1] == 'f';
    assert s[d] == ';' && s[d + 1] == 'f';
    assert |f| == 81 && forall k | 0 < k < 81 && k != 72 :: f[k] != ';';
    assert forall k | 0 <= k < 81 :: s[k] == f[k];
    assert f[73] == 't' && f[80] == '=';
    assert d >= 81;
    assert y == (y + w)[..|y|] == (x + s)[..|y|] == x + s[..d];
    assert s[..d][..81] == f;
    assert y[..|x|] == x && y[|x|..|x| + 81] == f;
    assert f[..8] == FOR_PAR && f[8..72] == a && f[72..81] == TRUST_ID;
    assert y[|x|..|x| + 8] == y[|x|..|x| + 81][..8] && y[|x| + 8..|x| + 72] == y[|x|..|x| + 81][8..72];
    assert y[|x| + 72..|x| + 81] == y[|x|..|x| + 81][72..81];
  }

  lemma ReceiversShifted(t: Txt, u: Txt)
    requires Ok(t) && Ok(u) && t.forId != u.forId && Message(t) == Message(u)
    ensures Extends(t.forId, u.forId) || Extends(u.forId, t.forId)
  {
    var p := "txtvers=1;parType=" + FP_SHA256 + ";forId=";
    AfterReceiver(t, p);
    AfterReceiver(u, p);
    var r, q := t.trustId + Tail(t), u.trustId + Tail(u);
    var v, w := FOR_PAR + t.forPar + TRUST_ID + r, FOR_PAR + u.forPar + TRUST_ID + q;
    assert IsUppercaseHex(t.forPar, 64) && IsUppercaseHex(u.forPar, 64);
    hide Ok, Tail, Message, Extends;
    CutFront(p, t.forId + v, p, u.forId + w);
    if |t.forId| == |u.forId| {
      CutFront(t.forId, v, u.forId, w);
    } else if |t.forId| < |u.forId| {
      Shifted(t.forId, t.forPar, r, u.forId, u.forPar, q);
    } else {
      Shifted(u.forId, u.forPar, q, t.forId, t.forPar, r);
    }
  }

  ghost predicate Confusable(x: string, y: string) {
    exists t, u :: Ok(t) && Ok(u) && t.forId == x && u.forId == y && Message(t) == Message(u)
  }

  /**
   For different receivers the message is ambiguous exactly when one of them extends the other, which is no
   blank: then, and only then, two valid records for them sign alike.
   */
  lemma AmbiguousReceivers(x: string, y: string)
    requires x != y
    ensures Confusable(x, y) <==> (TrimSpace(x) != "" && Extends(x, y)) || (TrimSpace(y) != "" && Extends(y, x))
  {
    if Confusable(x, y) {
      var t, u :| Ok(t) && Ok(u) && t.forId == x && u.forId == y && Message(t) == Message(u);
      ReceiversShifted(t, u);
      assert TrimSpace(x) != "" && TrimSpace(y) != "";
    }
    hide Extends, Ok, Message, TrimSpace;
    if TrimSpace(x) != "" && Extends(x, y) { ExtendedSignAlike(x, y); }
    if TrimSpace(y) != "" && Extends(y, x) { ExtendedSignAlike(y, x); }
  }

  lemma ExtendedSignAlike(x: string, y: string)
    requires TrimSpace(x) != "" && Extends(x, y)
    ensures Confusable(x, y) && Confusable(y, x)
  {
    var a, rest := ExtensionText(x, y);
    var b, z := Digits(64, 'B'), "z";
    assert TrimSpace(z) == z;
    SignAlike(x, rest, z, a, b);
    var t, u := Sample(x, a, rest + FOR_PAR + b + TRUST_ID + z), Sample(x + FOR_PAR + a + TRUST_ID + rest, b, z);
    assert t.forId == x && u.forId == y;
    hide TrimSpace, Extends, Ok, Message, Digits, FOR_PAR, TRUST_ID;
  }

  lemma ExtensionText(x: string, y: string) returns (a: string, rest: string)
    requires Extends(x, y)
    ensures IsUppercaseHex(a, 64) && y == x + FOR_PAR + a + TRUST_ID + rest
  {
    a, rest := y[|x| + 8..|x| + 72], y[|x| + 81..];
  }

  // ---------------------------------------------------------------- the key and the digest

  const NONCE_LENGTH := 16

  /** constructKey. */
  function Key(secret: seq<Byte>, nonce: seq<Byte>): seq<Byte> {
    secret + nonce
  }

  /** With nonces of the specified length, the key determines secret and nonce. */
  lemma KeyUnambiguous(s: seq<Byte>, n: seq<Byte>, t: seq<Byte>, m: seq<Byte>)
    requires |n| == NONCE_LENGTH && |m| == NONCE_LENGTH && Key(s, n) == Key(t, m)
    ensures s == t && n == m
  {
    var k := Key(s, n);
    assert s == k[..|k| - NONCE_LENGTH] && t == Key(t, m)[..|k| - NONCE_LENGTH];
    assert n == k[|k| - NONCE_LENGTH..] && m == Key(t, m)[|k| - NONCE_LENGTH..];
  }

  method ConstructKey(secret: array<Byte>, nonce: array<Byte>) returns (key: array<Byte>)
    ensures fresh(key) && key[..] == Key(secret[..], nonce[..])
  {
    key := new Byte[secret.Length + nonce.Length](i => 0);
    var i := 0;
    while i < secret.Length
      invariant 0 <= i <= secret.Length && key[..i] == secret[..i]
    {
      key[i] := secret[i];
      i := i + 1;
    }
    i := 0;
    while i < nonce.Length
      invariant 0 <= i <= nonce.Length && key[..secret.Length + i] == secret[..] + nonce[..i]
    {
      key[secret.Length + i] := nonce[i];
      i := i + 1;
    }
    assert key[..] == key[..secret.Length + i] && nonce[..i] == nonce[..];
  }

  type Mac = (seq<Byte>, string) -> seq<Byte>

  datatype MacError = InvalidSecret | WrongAlgorithm

  datatype MacResult = Sum(value: seq<Byte>) | NoSum(error: MacError)

  function CalculateDigest(mac: Mac, secret: seq<Byte>, alg: string, nonce: seq<Byte>, t: Txt): MacResult {
    if secret == [] then NoSum(InvalidSecret)
    else if alg != HMAC_SHA256 then NoSum(WrongAlgorithm)
    else Sum(mac(Key(secret, nonce), Message(t)))
  }

}
