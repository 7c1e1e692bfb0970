/** JavaScript values and the handful of built-in operations the job-board
    front end relies on: truthiness, optional property access, `||` chains,
    strict equality, `String.prototype.trim`, `Number(...)` and `String(...)`.
    Numbers are integers: the modelled code only ever holds salaries, counts,
    page numbers and identifiers in them. */
module Js {

  datatype Option<+T> = None | Some(value: T)

  datatype Result<+T, +E> = Ok(value: T) | Err(error: E)

  /** A browser `File` chosen in a file input: its name and its MIME type. */
  datatype File = File(name: string, mimeType: string)

  /** A JavaScript value, as far as the modelled code inspects it. */
  datatype JsValue =
    | Undefined
    | Null
    | Bool(b: bool)
    | Num(n: int)
    | NaN
    | Str(s: string)
    | Arr(items: seq<JsValue>)
    | Obj(fields: map<string, JsValue>)

  /** `undefined`, `null`, `false`, `0`, `NaN` and `""` are falsy; every
      other value, including an empty array or object, is truthy. */
  predicate Truthy(v: JsValue) {
    match v
    case Undefined => false
    case Null => false
    case Bool(b) => b
    case Num(n) => n != 0
    case NaN => false
    case Str(s) => s != ""
    case Arr(_) => true
    case Obj(_) => true
  }

  /** `v?.key`: the field when `v` is an object holding `key`, else `undefined`. */
  function Get(v: JsValue, key: string): JsValue {
    if v.Obj? && key in v.fields then v.fields[key] else Undefined
  }

  /** `a === b`. Arrays and objects are treated as distinct references. */
  predicate StrictEq(a: JsValue, b: JsValue) {
    match a
    case NaN => false
    case Arr(_) => false
    case Obj(_) => false
    case _ => a == b
  }

  /** `xs[0] || xs[1] || ... || xs[n-1]`: the first truthy operand, or the
      last operand when none is truthy. */
  function OrChain(xs: seq<JsValue>): (r: JsValue)
    requires |xs| > 0
    ensures forall i :: 0 <= i < |xs| && Truthy(xs[i]) && (forall j :: 0 <= j < i ==> !Truthy(xs[j])) ==>
      r == xs[i]
    ensures (forall j :: 0 <= j < |xs| ==> !Truthy(xs[j])) ==> r == xs[|xs| - 1]
  {
    if |xs| == 1 || Truthy(xs[0]) then xs[0]
    else
      var r := OrChain(xs[1..]);
      assert forall j :: 1 <= j < |xs| ==> xs[j] == xs[1..][j - 1];
      r
  }

  /** `r` is the first truthy candidate, or `fallback` when none is truthy. */
  predicate PicksFirstTruthy(candidates: seq<JsValue>, fallback: JsValue, r: JsValue) {
    && ((forall j :: 0 <= j < |candidates| ==> !Truthy(candidates[j])) ==> r == fallback)
    && (forall i ::
          (0 <= i < |candidates| && Truthy(candidates[i]) && forall j :: 0 <= j < i ==> !Truthy(candidates[j]))
          ==> r == candidates[i])
  }

  /** A chain `c0 || c1 || ... || fallback` picks the first truthy candidate. */
  lemma OrChainPicksFirstTruthy(candidates: seq<JsValue>, fallback: JsValue)
    ensures PicksFirstTruthy(candidates, fallback, OrChain(candidates + [fallback]))
  {
    var xs := candidates + [fallback];
    assert forall j :: 0 <= j < |candidates| ==> xs[j] == candidates[j];
    if forall j :: 0 <= j < |candidates| ==> !Truthy(candidates[j]) {
      if Truthy(fallback) {
        assert forall j :: 0 <= j < |candidates| ==> !Truthy(xs[j]);
        assert xs[|candidates|] == fallback;
      }
    }
  }

  /** The characters `String.prototype.trim` removes: WhiteSpace and
      LineTerminator of ECMAScript. */
  predicate IsJsSpace(c: char) {
    c == '\t' || c == '\n' || c == '\U{000B}' || c == '\U{000C}' || c == '\r' || c == ' '
    || c == '\U{00A0}' || c == '\U{1680}' || ('\U{2000}' <= c <= '\U{200A}')
    || c == '\U{2028}' || c == '\U{2029}' || c == '\U{202F}' || c == '\U{205F}'
    || c == '\U{3000}' || c == '\U{FEFF}'
  }

  predicate AllSpace(s: string) {
    forall i :: 0 <= i < |s| ==> IsJsSpace(s[i])
  }

  /** `s.trimEnd()` */
  function TrimEnd(s: string): (r: string)
    ensures r <= s
    ensures r == "" || !IsJsSpace(r[|r| - 1])
    ensures AllSpace(s[|r|..])
  {
    if s == [] || !IsJsSpace(s[|s| - 1]) then s
    else
      var r := TrimEnd(s[..|s| - 1]);
      assert s[|r|..] == s[..|s| - 1][|r|..] + [s[|s| - 1]];
      r
  }

  /** `s.trimStart()` */
  function TrimStart(s: string): (r: string)
    ensures |r| <= |s| && r == s[|s| - |r|..]
    ensures r == "" || !IsJsSpace(r[0])
    ensures AllSpace(s[..|s| - |r|])
  {
    if s == [] || !IsJsSpace(s[0]) then s
    else
      var r := TrimStart(s[1..]);
      assert s[..|s| - |r|] == [s[0]] + s[1..][..|s| - 1 - |r|];
      r
  }

  /** `s.trim()` */
  function Trim(s: string): string {
    TrimEnd(TrimStart(s))
  }

  /** A string trims to "" exactly when every character is whitespace. */
  lemma {:induction false} TrimEmptyIffBlank(s: string)
    ensures Trim(s) == "" <==> AllSpace(s)
  {
    var t := TrimStart(s);
    if Trim(s) == "" {
      assert AllSpace(t);
      assert t == "";
      forall i | 0 <= i < |s| ensures IsJsSpace(s[i]) {
        assert s[i] == s[..|s| - |t|][i];
      }
    } else {
      var r := Trim(s);
      assert !IsJsSpace(r[|r| - 1]);
      assert r[|r| - 1] == t[|r| - 1];
      assert t[|r| - 1] == s[|s| - |t| + |r| - 1];
    }
  }

  predicate IsDigit(c: char) {
    '0' <= c <= '9'
  }

  predicate AllDigits(s: string) {
    forall i :: 0 <= i < |s| ==> IsDigit(s[i])
  }

  /** The value of a decimal digit string (`Number` on such a string). */
  function DigitsValue(s: string): int {
    if s == [] then 0
    else DigitsValue(s[..|s| - 1]) * 10 + (s[|s| - 1] as int - '0' as int)
  }

  /** The decimal representation of a natural number, as `String(n)` writes it. */
  function NatToString(n: nat): (r: string)
    ensures r != "" && AllDigits(r)
    ensures r[0] == '0' ==> n == 0
  {
    if n < 10 then [('0' as int + n) as char]
    else NatToString(n / 10) + [('0' as int + n % 10) as char]
  }

  /** Reading back what `String(n)` writes gives `n`. */
  lemma {:induction false} DigitsValueOfNatToString(n: nat)
    ensures DigitsValue(NatToString(n)) == n
  {
    if n >= 10 {
      var s := NatToString(n);
      assert s[..|s| - 1] == NatToString(n / 10);
      DigitsValueOfNatToString(n / 10);
    }
  }

  /** `String(n)` for an integer. */
  function IntToString(n: int): string {
    if n < 0 then "-" + NatToString(-n) else NatToString(n)
  }

  /** `Number(s)` for a string, for the decimal integers this model keeps:
      surrounding whitespace is ignored, the blank string is 0, an optional
      sign may precede the digits. Any other text is NaN here, including
      decimals, exponents, hexadecimal and `Infinity`, which JavaScript reads
      as numbers. */
  function StringToNumber(s: string): (r: JsValue)
    ensures r.Num? || r.NaN?
  {
    var t := Trim(s);
    if t == "" then Num(0)
    else if AllDigits(t) then Num(DigitsValue(t))
    else if |t| > 1 && t[0] == '+' && AllDigits(t[1..]) then Num(DigitsValue(t[1..]))
    else if |t| > 1 && t[0] == '-' && AllDigits(t[1..]) then Num(0 - DigitsValue(t[1..]))
    else NaN
  }

  /** `String(v)` */
  function ToJsString(v: JsValue): string {
    match v
    case Undefined => "undefined"
    case Null => "null"
    case Bool(b) => if b then "true" else "false"
    case Num(n) => IntToString(n)
    case NaN => "NaN"
    case Str(s) => s
    case Arr(items) => JoinElements(items)
    case Obj(_) => "[object Object]"
  }

  /** `Array.prototype.join` with the default separator, as `String` on an
      array uses it: `null` and `undefined` elements become "". */
  function JoinElements(items: seq<JsValue>): string
    decreases items
  {
    if items == [] then ""
    else
      var head := if items[0].Null? || items[0].Undefined? then "" else ToJsString(items[0]);
      if |items| == 1 then head else head + "," + JoinElements(items[1..])
  }

  /** `Number(v)` */
  function ToNumber(v: JsValue): (r: JsValue)
    ensures r.Num? || r.NaN?
  {
    match v
    case Undefined => NaN
    case Null => Num(0)
    case Bool(b) => Num(if b then 1 else 0)
    case Num(n) => v
    case NaN => NaN
    case Str(s) => StringToNumber(s)
    case Arr(_) => StringToNumber(ToJsString(v))
    case Obj(_) => NaN
  }

  /** `Number(String(n))` is `n` for every integer. */
  lemma NumberOfIntString(n: int)
    ensures ToNumber(Str(IntToString(n))) == Num(n)
  {
    var m: nat := if n < 0 then -n else n;
    var d := NatToString(m);
    DigitsValueOfNatToString(m);
    TrimOfDigitsIsIdentity(d);
    if n < 0 {
      NumberOfNegativeString(d);
    }
  }

  /** `Number("-" + d)` is minus the digits' value. */
  lemma NumberOfNegativeString(d: string)
    requires d != "" && AllDigits(d)
    ensures ToNumber(Str("-" + d)) == Num(-DigitsValue(d))
  {
    var s := "-" + d;
    assert s[1..] == d;
    assert !IsJsSpace(s[0]) && !IsJsSpace(s[|s| - 1]);
    assert TrimStart(s) == s;
    assert Trim(s) == s;
    assert !IsDigit(s[0]);
  }

  lemma TrimOfDigitsIsIdentity(d: string)
    requires d != "" && AllDigits(d)
    ensures Trim(d) == d
  {
    assert !IsJsSpace(d[0]);
    assert TrimStart(d) == d;
    assert !IsJsSpace(d[|d| - 1]);
  }

  /** `parts.join(sep)` */
  function Join(parts: seq<string>, sep: string): string {
    if parts == [] then ""
    else if |parts| == 1 then parts[0]
    else parts[0] + sep + Join(parts[1..], sep)
  }

  /** Joining non-empty parts yields "" exactly when there are no parts. */
  lemma JoinOfNonEmptyParts(parts: seq<string>, sep: string)
    requires forall i :: 0 <= i < |parts| ==> parts[i] != ""
    ensures Join(parts, sep) == "" <==> parts == []
  {
    if |parts| > 1 {
      assert |Join(parts, sep)| >= |parts[0]|;
    }
  }

  /** `s.replaceAll(from, to)` for single characters. */
  function ReplaceChar(s: string, from: char, to: char): (r: string)
    ensures |r| == |s|
    ensures forall i :: 0 <= i < |s| ==> r[i] == if s[i] == from then to else s[i]
  {
    if s == [] then [] else [if s[0] == from then to else s[0]] + ReplaceChar(s[1..], from, to)
  }

  /** `toLowerCase` on one character: ASCII letters and the Spanish
      upper-case letters with an accent or tilde. */
  function LowerChar(c: char): char {
    if 'A' <= c <= 'Z' then (c as int + 32) as char
    else if c == 'Ñ' then 'ñ'
    else if c == 'Á' then 'á'
    else if c == 'É' then 'é'
    else if c == 'Í' then 'í'
    else if c == 'Ó' then 'ó'
    else if c == 'Ú' then 'ú'
    else if c == 'Ü' then 'ü'
    else c
  }

  /** `toUpperCase` on one character, inverse of LowerChar on its letters. */
  function UpperChar(c: char): char {
    if 'a' <= c <= 'z' then (c as int - 32) as char
    else if c == 'ñ' then 'Ñ'
    else if c == 'á' then 'Á'
    else if c == 'é' then 'É'
    else if c == 'í' then 'Í'
    else if c == 'ó' then 'Ó'
    else if c == 'ú' then 'Ú'
    else if c == 'ü' then 'Ü'
    else c
  }

  function ToLower(s: string): (r: string)
    ensures |r| == |s| && forall i :: 0 <= i < |s| ==> r[i] == LowerChar(s[i])
  {
    seq(|s|, i requires 0 <= i < |s| => LowerChar(s[i]))
  }

  function ToUpper(s: string): (r: string)
    ensures |r| == |s| && forall i :: 0 <= i < |s| ==> r[i] == UpperChar(s[i])
  {
    seq(|s|, i requires 0 <= i < |s| => UpperChar(s[i]))
  }

  /** `s.startsWith(p)` */
  predicate StartsWith(s: string, p: string) {
    |p| <= |s| && s[..|p|] == p
  }

  /** `s.includes(c)` for one character. */
  predicate Contains(s: string, c: char) {
    c in s
  }
}
