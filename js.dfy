/** The pieces of JavaScript semantics that the two controllers depend on:
    request-body values, truthiness, string and number conversion, and the
    array methods `findIndex`, `splice` and `includes`. */
module Js {

  datatype Option<+T> = None | Some(value: T)

  /** A value as a parsed JSON request body can hold it, plus `undefined` for
      a property that is absent. Numbers are integers. */
  datatype Json =
    | Undefined
    | Null
    | Bool(b: bool)
    | Num(n: int)
    | Str(s: string)
    | Arr(elems: seq<Json>)
    | Obj(fields: map<string, Json>)

  /** ECMAScript ToBoolean: the falsy values are exactly undefined, null,
      false, 0 and the empty string; every array and object is truthy. */
  predicate Truthy(v: Json)
    ensures Truthy(v) <==> v !in {Undefined, Null, Bool(false), Num(0), Str("")}
  {
    match v
    case Undefined => false
    case Null => false
    case Bool(b) => b
    case Num(n) => n != 0
    case Str(s) => s != ""
    case Arr(_) => true
    case Obj(_) => true
  }

  /** The property read `v.key` on a value that is neither null nor
      undefined (reading from those throws, and callers check for it first).
      Only objects carry the keys the controllers read. */
  function Prop(v: Json, key: string): (r: Json)
    ensures !v.Obj? ==> r == Undefined
    ensures v.Obj? && key !in v.fields ==> r == Undefined
  {
    if v.Obj? && key in v.fields then v.fields[key] else Undefined
  }

  // ---------------------------------------------------------------------
  // Decimal text

  predicate IsDigit(c: char) { '0' <= c <= '9' }

  predicate AllDigits(s: string) { forall i :: 0 <= i < |s| ==> IsDigit(s[i]) }

  function DigitChar(d: nat): (c: char)
    requires d < 10
    ensures IsDigit(c) && c as int - '0' as int == d
  {
    ('0' as int + d) as char
  }

  /** The decimal numeral of a natural number, without leading zeros. */
  function NatToString(n: nat): (s: string)
    ensures s != [] && AllDigits(s)
    decreases n
  {
    if n < 10 then [DigitChar(n)] else NatToString(n / 10) + [DigitChar(n % 10)]
  }

  /** `String(n)` for an integer `n`. */
  function IntToString(n: int): (s: string)
    ensures s != []
    ensures n >= 0 <==> AllDigits(s)
  {
    if n < 0 then
      var s := "-" + NatToString(-n);
      assert !IsDigit(s[0]);
      s
    else NatToString(n)
  }

  /** The value of a string of decimal digits. */
  function DigitsValue(s: string): nat
    requires AllDigits(s)
    decreases |s|
  {
    if s == [] then 0
    else DigitsValue(s[..|s| - 1]) * 10 + (s[|s| - 1] as int - '0' as int)
  }

  /** `Number(s)` for a string `s`; None stands for NaN. Only the empty
      string, a run of digits and a minus sign followed by digits are read
      as numbers; every other text (blanks, '+', fractions, exponents, hex,
      "Infinity") is taken to be NaN. */
  function NumberOf(s: string): (r: Option<int>)
    ensures s == "" ==> r == Some(0)
    ensures s != "" && AllDigits(s) ==> r == Some(DigitsValue(s))
    ensures r.Some? && r.value < 0 ==> s[0] == '-'
  {
    if s == "" then Some(0)
    else if AllDigits(s) then Some(DigitsValue(s))
    else if s[0] == '-' && |s| > 1 && AllDigits(s[1..]) then
      var magnitude: int := DigitsValue(s[1..]);
      Some(-magnitude)
    else None
  }

  lemma {:induction false} DigitsValueOfNatToString(n: nat)
    ensures DigitsValue(NatToString(n)) == n
    decreases n
  {
    if n >= 10 {
      var s := NatToString(n / 10) + [DigitChar(n % 10)];
      assert s[..|s| - 1] == NatToString(n / 10);
      DigitsValueOfNatToString(n / 10);
    }
  }

  /** Reading back the text of an integer gives the integer:
      `Number(String(n)) === n`. */
  lemma NumberOfIntToString(n: int)
    ensures NumberOf(IntToString(n)) == Some(n)
  {
    if n < 0 {
      var s := IntToString(n);
      assert s[1..] == NatToString(-n);
      assert !IsDigit(s[0]);
      DigitsValueOfNatToString(-n);
    } else {
      DigitsValueOfNatToString(n);
    }
  }

  // ---------------------------------------------------------------------
  // Conversions

  /** `array.join(",")` over the already converted elements. */
  function JoinWithCommas(parts: seq<string>): string
    decreases |parts|
  {
    if parts == [] then ""
    else if |parts| == 1 then parts[0]
    else JoinWithCommas(parts[..|parts| - 1]) + "," + parts[|parts| - 1]
  }

  /** ECMAScript ToString, as a template literal `${v}` applies it. An array
      is joined with commas, its null and undefined elements becoming empty. */
  function ToJsString(v: Json): string
    decreases v
  {
    match v
    case Undefined => "undefined"
    case Null => "null"
    case Bool(b) => if b then "true" else "false"
    case Num(n) => IntToString(n)
    case Str(s) => s
    case Arr(a) =>
      JoinWithCommas(seq(|a|, i requires 0 <= i < |a| =>
        if a[i].Undefined? || a[i].Null? then "" else ToJsString(a[i])))
    case Obj(_) => "[object Object]"
  }

  /** ECMAScript ToNumber; None stands for NaN. An array or object is first
      turned into its string. */
  function ToNumber(v: Json): (r: Option<int>)
    ensures v.Num? ==> r == Some(v.n)
    ensures v.Undefined? ==> r.None?
    ensures v.Null? ==> r == Some(0)
  {
    match v
    case Undefined => None
    case Null => Some(0)
    case Bool(b) => Some(if b then 1 else 0)
    case Num(n) => Some(n)
    case Str(s) => NumberOf(s)
    case _ => NumberOf(ToJsString(v))
  }

  /** The relational comparison `v > k` against a number literal `k`:
      `v` is converted with ToNumber, and NaN compares false. */
  predicate GreaterThan(v: Json, k: int)
    ensures v.Num? ==> (GreaterThan(v, k) <==> v.n > k)
    ensures v.Undefined? ==> !GreaterThan(v, k)
  {
    var x := ToNumber(v);
    x.Some? && x.value > k
  }

  /** The relational comparison `v <= k` against a number literal `k`. */
  predicate AtMost(v: Json, k: int)
    ensures v.Num? ==> (AtMost(v, k) <==> v.n <= k)
    ensures v.Undefined? ==> !AtMost(v, k)
  {
    var x := ToNumber(v);
    x.Some? && x.value <= k
  }

  /** Strict equality `v === x` against the result `x` of a conversion to
      number (None is NaN, which equals nothing). A string never equals a
      number. */
  predicate StrictEqualsNumber(v: Json, x: Option<int>)
    ensures v.Str? ==> !StrictEqualsNumber(v, x)
  {
    x.Some? && v == Num(x.value)
  }

  /** `s.includes(t)` for strings: `t` occurs in `s` at some position. */
  predicate Includes(s: string, t: string)
  {
    exists i | 0 <= i <= |s| :: t <= s[i..]
  }

  lemma IncludesInfix(pre: string, t: string, post: string)
    ensures Includes(pre + t + post, t)
  {
    var s := pre + t + post;
    assert s[|pre|..] == t + post;
  }

  // ---------------------------------------------------------------------
  // Arrays

  /** `Array.prototype.findIndex`: the first index whose element satisfies
      `p`, or -1 when none does. (`find` is the element at that index.) */
  function FindIndex<T>(s: seq<T>, p: T -> bool): (k: int)
    ensures -1 <= k < |s|
    ensures k == -1 <==> forall i :: 0 <= i < |s| ==> !p(s[i])
    ensures 0 <= k ==> p(s[k]) && forall j :: 0 <= j < k ==> !p(s[j])
    decreases |s|
  {
    if s == [] then -1
    else if p(s[0]) then 0
    else
      var k := FindIndex(s[1..], p);
      if k == -1 then -1 else k + 1
  }

  /** `s.splice(start, 1)`: removes one element; a negative `start` counts
      back from the end, one past the end removes nothing. */
  function SpliceOne<T>(s: seq<T>, start: int): (r: seq<T>)
    ensures 0 <= start < |s| ==> r == s[..start] + s[start + 1..]
    ensures -|s| <= start < 0 ==> r == s[..|s| + start] + s[|s| + start + 1..]
    ensures start < -|s| && s != [] ==> r == s[1..]
    ensures start >= |s| ==> r == s
  {
    var k := if start < 0 then (if |s| + start < 0 then 0 else |s| + start) else start;
    if k < |s| then s[..k] + s[k + 1..] else s
  }
}
