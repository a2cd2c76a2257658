/**
 * JavaScript values as the engine sees them: the payloads of webhooks, node
 * configuration (`node.data`), the run context and provider responses.
 * Numbers are integers here; NaN and fractions are not modelled.
 */
module Json {
  import opened Wrappers

  datatype Value =
    | Undefined
    | Null
    | Bool(b: bool)
    | Num(n: int)
    | Str(s: string)
    | Arr(items: seq<Value>)
    | Obj(fields: map<string, Value>)

  /** JavaScript truthiness (`if (v)`, `!v`, `a || b`). */
  predicate Truthy(v: Value) {
    match v
    case Undefined => false
    case Null => false
    case Bool(b) => b
    case Num(n) => n != 0
    case Str(s) => s != ""
    case Arr(_) => true
    case Obj(_) => true
  }

  predicate IsNullish(v: Value) {
    v.Undefined? || v.Null?
  }

  /** `v?.k`: undefined on a nullish base and on a missing key; only objects have keys. */
  function OptGet(v: Value, k: string): (r: Value)
    ensures !v.Obj? ==> r == Undefined
    ensures v.Obj? && k !in v.fields ==> r == Undefined
  {
    match v
    case Obj(f) => if k in f then f[k] else Undefined
    case _ => Undefined
  }

  /** `v.k`: throws a TypeError (None) exactly when the base is null or undefined. */
  function Get(v: Value, k: string): (r: Option<Value>)
    ensures r.None? <==> IsNullish(v)
    ensures r.Some? ==> r.value == OptGet(v, k)
  {
    if IsNullish(v) then None else Some(OptGet(v, k))
  }

  /** `v?.[i]`: array element, object key "i", or one character of a string. */
  function OptIndex(v: Value, i: nat): (r: Value)
    ensures v.Arr? && i < |v.items| ==> r == v.items[i]
    ensures IsNullish(v) ==> r == Undefined
  {
    match v
    case Arr(items) => if i < |items| then items[i] else Undefined
    case Obj(f) => var k := NatToString(i); if k in f then f[k] else Undefined
    case Str(s) => if i < |s| then Str([s[i]]) else Undefined
    case _ => Undefined
  }

  /** `a || b`. */
  function Or(a: Value, b: Value): (r: Value)
    ensures Truthy(a) ==> r == a
    ensures !Truthy(a) ==> r == b
  {
    if Truthy(a) then a else b
  }

  /** `a || b || c`. */
  function Or3(a: Value, b: Value, c: Value): (r: Value)
    ensures r == Or(a, Or(b, c))
  {
    Or(a, Or(b, c))
  }

  /** `(v || "")` for a string-valued field, as a Dafny string when it is one. */
  function StrOr(v: Value, default: string): string {
    if v.Str? && v.s != "" then v.s else default
  }

  function DigitChar(d: nat): char
    requires d < 10
  {
    "0123456789"[d]
  }

  function NatToString(n: nat): (s: string)
    ensures |s| >= 1
    decreases n
  {
    if n < 10 then [DigitChar(n)] else NatToString(n / 10) + [DigitChar(n % 10)]
  }

  /** `String(n)` for an integer. */
  function IntToString(n: int): string {
    if n < 0 then "-" + NatToString(-n) else NatToString(n)
  }

  /** `String(v)`: the conversion a template literal or `join` applies. */
  function ToJsString(v: Value): string
    decreases v
  {
    match v
    case Undefined => "undefined"
    case Null => "null"
    case Bool(b) => if b then "true" else "false"
    case Num(n) => IntToString(n)
    case Str(s) => s
    case Arr(items) =>
      JoinStrings(seq(|items|, i requires 0 <= i < |items| =>
        if IsNullish(items[i]) then "" else ToJsString(items[i])), ",")
    case Obj(_) => "[object Object]"
  }

  function JoinStrings(parts: seq<string>, sep: string): string {
    if parts == [] then ""
    else if |parts| == 1 then parts[0]
    else parts[0] + sep + JoinStrings(parts[1..], sep)
  }

  /** `Array.prototype.join`: null and undefined elements become "". */
  function Join(items: seq<Value>, sep: string): string {
    JoinStrings(seq(|items|, i requires 0 <= i < |items| =>
      if IsNullish(items[i]) then "" else ToJsString(items[i])), sep)
  }

  predicate MatchesAt(s: string, pat: string, i: nat) {
    i + |pat| <= |s| && s[i..i + |pat|] == pat
  }

  /** `s.includes(pat)`. */
  predicate Contains(s: string, pat: string) {
    exists i: nat | i <= |s| :: MatchesAt(s, pat, i)
  }

  /** `s.slice(0, n)`. */
  function Prefix(s: string, n: nat): (r: string)
    ensures |r| == if |s| <= n then |s| else n
    ensures r <= s
  {
    if |s| <= n then s else s[..n]
  }

  /** The white space and line terminators `String.prototype.trim` removes. */
  predicate IsSpace(c: char) {
    c == ' ' || c == '\t' || c == '\n' || c == '\r' || c == '\U{000B}' || c == '\U{000C}' || c == '\U{00A0}' ||
    c == '\U{1680}' || ('\U{2000}' <= c <= '\U{200A}') || c == '\U{2028}' || c == '\U{2029}' || c == '\U{202F}' ||
    c == '\U{205F}' || c == '\U{3000}' || c == '\U{FEFF}'
  }

  function TrimStart(s: string): (r: string)
    ensures |r| <= |s| && r == s[|s| - |r|..]
    ensures r == [] || !IsSpace(r[0])
    ensures forall i | 0 <= i < |s| - |r| :: IsSpace(s[i])
  {
    if s != [] && IsSpace(s[0]) then TrimStart(s[1..]) else s
  }

  function TrimEnd(s: string): (r: string)
    ensures |r| <= |s| && r == s[..|r|]
    ensures r == [] || !IsSpace(r[|r| - 1])
    ensures forall i | |r| <= i < |s| :: IsSpace(s[i])
  {
    if s != [] && IsSpace(s[|s| - 1]) then TrimEnd(s[..|s| - 1]) else s
  }

  /** `s.trim()`: the longest slice of `s` that neither starts nor ends with white space. */
  function Trim(s: string): (r: string)
    ensures r == [] || (!IsSpace(r[0]) && !IsSpace(r[|r| - 1]))
    ensures exists i, j | 0 <= i <= j <= |s| :: r == s[i..j]
  {
    var t := TrimStart(s);
    var r := TrimEnd(t);
    assert r != [] ==> r[0] == t[0];
    assert r == s[|s| - |t|..|s| - |t| + |r|];
    r
  }

  /** A string trims to "" exactly when it is all white space. */
  lemma TrimEmpty(s: string)
    ensures Trim(s) == "" <==> forall i | 0 <= i < |s| :: IsSpace(s[i])
  {
    var t := TrimStart(s);
    if Trim(s) == "" {
      assert t == [];
    }
  }

  /** The first index at or after `from` where `pat` occurs. */
  function FirstMatchFrom(s: string, pat: string, from: nat): (r: Option<nat>)
    requires from <= |s|
    ensures r.Some? ==> from <= r.value <= |s| && MatchesAt(s, pat, r.value)
    ensures forall j | from <= j <= |s| && (r.None? || j < r.value) :: !MatchesAt(s, pat, j)
    decreases |s| - from
  {
    if MatchesAt(s, pat, from) then Some(from)
    else if from == |s| then None
    else FirstMatchFrom(s, pat, from + 1)
  }

  /** `s.indexOf(pat)`, None for -1. */
  function FirstMatch(s: string, pat: string): (r: Option<nat>)
    ensures r.Some? ==> r.value <= |s| && MatchesAt(s, pat, r.value)
    ensures r.Some? ==> forall j: nat | j < r.value :: !MatchesAt(s, pat, j)
    ensures r.None? <==> !Contains(s, pat)
  {
    var r := FirstMatchFrom(s, pat, 0);
    assert r.Some? ==> Contains(s, pat) by {
      if r.Some? { assert MatchesAt(s, pat, r.value); }
    }
    r
  }

  /** `s.replace(pat, rep)` with a string pattern: only the first occurrence is replaced. */
  function ReplaceFirst(s: string, pat: string, rep: string): (r: string)
    ensures !Contains(s, pat) ==> r == s
    ensures FirstMatch(s, pat).Some? ==>
      var i := FirstMatch(s, pat).value; r == s[..i] + rep + s[i + |pat|..]
  {
    match FirstMatch(s, pat)
    case None => s
    case Some(i) => s[..i] + rep + s[i + |pat|..]
  }

  /** A string that starts with the pattern loses exactly that prefix. */
  lemma ReplaceLeadingPattern(pat: string, rest: string)
    ensures ReplaceFirst(pat + rest, pat, "") == rest
  {
    assert MatchesAt(pat + rest, pat, 0) by { assert (pat + rest)[..|pat|] == pat; }
    assert (pat + rest)[|pat|..] == rest;
  }
}
