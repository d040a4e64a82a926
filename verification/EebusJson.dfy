/**
 The EEBUS flavour of JSON (ship/helper.go): outgoing documents are transformed as a tree,
 incoming documents are repaired by four textual replacements.
 */
module EebusJson {

  /** A JSON document. Keys and leaf texts are the tokens as they are written, quotes included. */
  datatype Json =
    | Leaf(text: string)
    | Object(fields: seq<Field>)
    | Array(items: seq<Json>)
    // An object whose EEBUS form has lost its outer brackets: the top level of every message,
    // and the payload once it has been spliced into its envelope.
    | Unwrapped(fields: seq<Field>)

  datatype Field = Field(key: string, value: Json)

  predicate Structural(c: char) {
    c == '[' || c == ']' || c == '{' || c == '}' || c == ','
  }

  /** Every JSON token (quoted string, number, literal) begins and ends with a non-structural character. */
  predicate Token(t: string) {
    |t| > 0 && !Structural(t[0]) && !Structural(t[|t| - 1])
  }

  /** A document as encoding/json and the ordered map produce it. */
  predicate Plain(v: Json) {
    match v
    case Leaf(t) => Token(t)
    case Object(fs) => PlainFields(fs)
    case Array(xs) => PlainItems(xs)
    case Unwrapped(_) => false
  }

  predicate PlainFields(fs: seq<Field>) {
    fs == [] || (Token(fs[0].key) && Plain(fs[0].value) && PlainFields(fs[1..]))
  }

  predicate PlainItems(xs: seq<Json>) {
    xs == [] || (Plain(xs[0]) && PlainItems(xs[1..]))
  }

  // ---------------------------------------------------------------- printing

  /** How objects are delimited; arrays, colons and tokens look the same in every style. */
  datatype Style = Style(open: string, sep: string, close: string, hollow: string)

  const STANDARD := Style("{", ",", "}", "{}")
  const EEBUS := Style("[{", "},{", "}]", "[]")

  function Print(v: Json, st: Style): string {
    match v
    case Leaf(t) => t
    case Object(fs) => if fs == [] then st.hollow else st.open + PrintFields(fs, st) + st.close
    case Array(xs) => if xs == [] then "[]" else "[" + PrintItems(xs, st) + "]"
    case Unwrapped(fs) => if fs == [] then "" else "{" + PrintFields(fs, st) + "}"
  }

  function PrintField(f: Field, st: Style): string {
    f.key + ":" + Print(f.value, st)
  }

  function PrintFields(fs: seq<Field>, st: Style): string {
    if fs == [] then ""
    else if |fs| == 1 then PrintField(fs[0], st)
    else PrintField(fs[0], st) + st.sep + PrintFields(fs[1..], st)
  }

  function PrintItems(xs: seq<Json>, st: Style): string {
    if xs == [] then ""
    else if |xs| == 1 then Print(xs[0], st)
    else Print(xs[0], st) + "," + PrintItems(xs[1..], st)
  }

  // ---------------------------------------------------------------- outgoing: the tree transform

  /** Every object becomes an array of one-field objects, at every level. */
  function ToEebus(v: Json): Json {
    match v
    case Leaf(_) => v
    case Object(fs) => Array(ToEebusFields(fs))
    case Array(xs) => Array(ToEebusItems(xs))
    case Unwrapped(fs) => Array(ToEebusFields(fs))
  }

  function ToEebusFields(fs: seq<Field>): (r: seq<Json>)
    ensures |r| == |fs|
  {
    if fs == [] then [] else [Object([Field(fs[0].key, ToEebus(fs[0].value))])] + ToEebusFields(fs[1..])
  }

  function ToEebusItems(xs: seq<Json>): (r: seq<Json>)
    ensures |r| == |xs|
  {
    if xs == [] then [] else [ToEebus(xs[0])] + ToEebusItems(xs[1..])
  }

  /** process_eebus_json_hierarchie_level: appends to a fresh array in a loop, level by level. */
  method ProcessLevel(data: Json) returns (r: Json)
    requires Plain(data)
    ensures r == ToEebus(data)
    decreases data
  {
    match data {
      case Object(fs) =>
        var newArray: seq<Json> := [];
        var i := 0;
        while i < |fs|
          invariant 0 <= i <= |fs|
          invariant PlainFields(fs[i..])
          invariant newArray + ToEebusFields(fs[i..]) == ToEebusFields(fs)
        {
          var newValue := ProcessLevel(fs[i].value);
          newArray := newArray + [Object([Field(fs[i].key, newValue)])];
          assert fs[i..][0] == fs[i] && fs[i..][1..] == fs[i + 1..];
          i := i + 1;
        }
        r := Array(newArray);
      case Array(xs) =>
        var newArray: seq<Json> := [];
        var i := 0;
        while i < |xs|
          invariant 0 <= i <= |xs|
          invariant PlainItems(xs[i..])
          invariant newArray + ToEebusItems(xs[i..]) == ToEebusItems(xs)
        {
          var newValue := ProcessLevel(xs[i]);
          newArray := newArray + [newValue];
          assert xs[i..][0] == xs[i] && xs[i..][1..] == xs[i + 1..];
          i := i + 1;
        }
        r := Array(newArray);
      case Leaf(_) =>
        r := data;
    }
  }

  function TrimPrefix(s: string, c: char): string {
    if |s| > 0 && s[0] == c then s[1..] else s
  }

  function TrimSuffix(s: string, c: char): string {
    if |s| > 0 && s[|s| - 1] == c then s[..|s| - 1] else s
  }

  /** JsonIntoEEBUSJson: transform, print, and strip one bracket at each end. */
  function JsonIntoEebusJson(v: Json): string {
    TrimSuffix(TrimPrefix(Print(ToEebus(v), STANDARD), '['), ']')
  }

  // ---------------------------------------------------------------- incoming: four textual replacements

  /** bytes.ReplaceAll and strings.ReplaceAll: leftmost, non-overlapping, one pass. */
  function ReplaceAll(s: string, pat: string, rep: string): string
    requires |pat| > 0
  {
    if |s| < |pat| then s
    else if s[..|pat|] == pat then rep + ReplaceAll(s[|pat|..], pat, rep)
    else [s[0]] + ReplaceAll(s[1..], pat, rep)
  }

  const NUL: char := '\0'

  /** bytes.Trim with a NUL cutset. */
  function TrimNul(s: string): string {
    if |s| > 0 && s[0] == NUL then TrimNul(s[1..])
    else if |s| > 0 && s[|s| - 1] == NUL then TrimNul(s[..|s| - 1])
    else s
  }

  /** The four passes, in the order in which they are applied. */
  datatype Pass = OpenPass | SepPass | ClosePass | HollowPass

  function Pat(p: Pass): (s: string)
    ensures |s| >= 2 && forall k | 0 <= k < |s| :: Structural(s[k])
  {
    match p case OpenPass => "[{" case SepPass => "},{" case ClosePass => "}]" case HollowPass => "[]"
  }

  function Rep(p: Pass): string {
    match p case OpenPass => "{" case SepPass => "," case ClosePass => "}" case HollowPass => "{}"
  }

  function Apply(p: Pass, s: string): string {
    ReplaceAll(s, Pat(p), Rep(p))
  }

  /** JsonFromEEBUSJson on compact input. */
  function JsonFromEebusJson(data: string): string {
    Apply(HollowPass, Apply(ClosePass, Apply(SepPass, Apply(OpenPass, TrimNul(data)))))
  }
}
