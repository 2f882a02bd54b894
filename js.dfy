// The few JavaScript value semantics the application depends on: numbers that
// may be NaN or undefined (as produced by `Number(...)` and by reading past the
// end of an array), truthiness and `||` defaults on JSON-like values, and
// 32-bit integer wrap-around.

module Js {
  import opened Text

  // ---- numbers ----------------------------------------------------------------

  /** A JavaScript number restricted to integers, NaN, or the value undefined. */
  datatype Num = Int(i: int) | NaN | Undefined

  /**
   * `Number(s)` for the strings the application parses: surrounding
   * whitespace is ignored, the empty string is 0, a run of decimal digits is
   * its value, anything else is NaN.
   */
  function ToNumber(s: string): (r: Num)
    ensures r != Undefined
  {
    var t := Trim(s);
    if t == "" then Int(0)
    else if AllDigits(t) then Int(DigitsValue(t))
    else NaN
  }

  /** `v || 0`: NaN, undefined and 0 all become 0. */
  function OrZero(v: Num): int {
    if v.Int? then v.i else 0
  }

  /** `a > b`: false as soon as either side is NaN or undefined. */
  predicate Greater(a: Num, b: Num) {
    a.Int? && b.Int? && a.i > b.i
  }

  /** `v++`: undefined and NaN both become NaN. */
  function Increment(v: Num): (r: Num)
    ensures r.Int? <==> v.Int?
  {
    if v.Int? then Int(v.i + 1) else NaN
  }

  /** `String(v)` and `${v}`. */
  function Render(v: Num): string {
    match v
    case Int(i) => IntToString(i)
    case NaN => "NaN"
    case Undefined => "undefined"
  }

  /** How `Array.prototype.join` renders an element: undefined becomes "". */
  function RenderInJoin(v: Num): string {
    if v == Undefined then "" else Render(v)
  }

  /** No rendering of a number contains a dot (the model has no fractions). */
  lemma RenderHasNoDot(v: Num)
    ensures '.' !in Render(v) && '.' !in RenderInJoin(v)
  {
    if v.Int? {
      IntToStringHasNoDot(v.i);
    }
  }

  /** A rendered integer reads back as itself through `Number`. */
  lemma {:induction false} ToNumberRender(n: nat)
    ensures ToNumber(Render(Int(n))) == Int(n)
  {
    var s := NatToString(n);
    NatToStringValue(n);
    assert Render(Int(n)) == s;
    assert |s| > 0 && !IsSpace(s[0]) && !IsSpace(s[|s| - 1]) by {
      assert IsDigit(s[0]) && IsDigit(s[|s| - 1]);
    }
    assert TrimStart(s) == s;
    assert TrimEnd(s) == s;
  }

  /** A no-break space around a numeral is whitespace to `Number`, as to `trim()`. */
  lemma NoBreakSpaceAroundNumeral()
    ensures ToNumber("\U{A0}1") == Int(1)
  {
    assert TrimStart("\U{A0}1") == "1";
    assert TrimEnd("1") == "1";
  }

  /** Leading decimal digits of a string. */
  function DigitPrefix(s: string): (r: string)
    ensures AllDigits(r) && IsPrefix(r, s)
    decreases |s|
  {
    if |s| > 0 && IsDigit(s[0]) then [s[0]] + DigitPrefix(s[1..]) else ""
  }

  /**
   * `parseInt(s, 10)` without sign handling: the value of the leading digits
   * after leading whitespace, NaN when there are none.
   */
  function ParseInt(s: string): (r: Num)
    ensures r != Undefined
  {
    var d := DigitPrefix(TrimStart(s));
    if d == "" then NaN else Int(DigitsValue(d))
  }

  /** A run of digits is its own digit prefix. */
  lemma {:induction false} DigitPrefixOfDigits(s: string)
    requires AllDigits(s)
    ensures DigitPrefix(s) == s
    decreases |s|
  {
    if |s| > 0 {
      DigitPrefixOfDigits(s[1..]);
    }
  }

  /** `parseInt(String(n))` gives back `n`. */
  lemma ParseIntRender(n: nat)
    ensures ParseInt(Render(Int(n))) == Int(n)
  {
    var s := NatToString(n);
    assert IsDigit(s[0]);
    assert TrimStart(s) == s;
    DigitPrefixOfDigits(s);
    NatToStringValue(n);
  }

  // ---- 32-bit integers ------------------------------------------------------------

  const TwoTo32: int := 0x1_0000_0000
  const TwoTo31: int := 0x8000_0000

  /** ECMAScript ToInt32: wrap an integer into [-2^31, 2^31). */
  function ToInt32(x: int): (r: int)
    ensures -TwoTo31 <= r < TwoTo31
    ensures (r - x) % TwoTo32 == 0
  {
    (x + TwoTo31) % TwoTo32 - TwoTo31
  }

  /** `Math.abs` of a 32-bit integer. */
  function Abs(x: int): nat {
    if x < 0 then -x else x
  }

  // ---- JSON-like values --------------------------------------------------------

  /** A parsed JSON document, or a JavaScript object of the same shape. */
  datatype Json =
    | JUndefined
    | JNull
    | JBool(b: bool)
    | JNum(n: int)
    | JStr(s: string)
    | JArr(items: seq<Json>)
    | JObj(fields: map<string, Json>)

  /** JavaScript truthiness (the model has no NaN among JSON numbers). */
  predicate Truthy(j: Json) {
    match j
    case JUndefined => false
    case JNull => false
    case JBool(b) => b
    case JNum(n) => n != 0
    case JStr(s) => s != ""
    case JArr(_) => true
    case JObj(_) => true
  }

  /** `a || b`. */
  function Or(a: Json, b: Json): (r: Json)
    ensures Truthy(a) ==> r == a
    ensures !Truthy(a) ==> r == b
  {
    if Truthy(a) then a else b
  }

  /** `j?.key`: undefined when `j` is not an object or has no such key. */
  function Get(j: Json, key: string): Json {
    if j.JObj? && key in j.fields then j.fields[key] else JUndefined
  }

  /** Reading a property of null or undefined throws a TypeError (None); anything else is `Get`. */
  function Prop(j: Json, key: string): Option<Json> {
    if j == JNull || j == JUndefined then None else Some(Get(j, key))
  }

  /** A value used where the application expects a string: its text, or "". */
  function Str(j: Json): string {
    if j.JStr? then j.s else ""
  }

  /**
   * `String(j)`. An array is joined with ",", its null and undefined elements
   * giving empty texts.
   */
  function ToStr(j: Json): string
    decreases j, 0
  {
    match j
    case JUndefined => "undefined"
    case JNull => "null"
    case JBool(b) => if b then "true" else "false"
    case JNum(n) => IntToString(n)
    case JStr(s) => s
    case JArr(items) => Join(seq(|items|, i requires 0 <= i < |items| => ElementText(items[i])), ",")
    case JObj(_) => "[object Object]"
  }

  /** How `Array.prototype.join` writes one element. */
  function ElementText(j: Json): string
    decreases j, 1
  {
    if j.JNull? || j.JUndefined? then "" else ToStr(j)
  }

  /** A number field read with a `|| 0` default. */
  function NumOr0(j: Json): int {
    if j.JNum? then j.n else 0
  }

  /** `Array.isArray(j)`. */
  predicate IsArray(j: Json) {
    j.JArr?
  }

  // ---- evaluation that may throw ------------------------------------------------

  /** The result of evaluating JavaScript that may throw. */
  datatype Outcome<+T> = Throws | Returns(value: T)

  /** `items.map(f)`: throws as soon as one element does. */
  function MapAll<A, B>(items: seq<A>, f: A -> Outcome<B>): (r: Outcome<seq<B>>)
    ensures r.Returns? <==> forall i :: 0 <= i < |items| ==> f(items[i]).Returns?
    ensures r.Returns? ==> |r.value| == |items| && forall i :: 0 <= i < |items| ==> r.value[i] == f(items[i]).value
    decreases |items|
  {
    if |items| == 0 then Returns([])
    else
      var rest := MapAll(items[1..], f);
      assert forall i :: 1 <= i < |items| ==> items[i] == items[1..][i - 1];
      if f(items[0]).Throws? || rest.Throws? then Throws
      else Returns([f(items[0]).value] + rest.value)
  }

  /** `.filter(Boolean)` on normalised values, where a dropped value is `null`. */
  function Somes<T(!new)>(s: seq<Option<T>>): (r: seq<T>)
    ensures |r| <= |s|
    ensures forall x :: x in r <==> Some(x) in s
    decreases |s|
  {
    if |s| == 0 then []
    else if s[0].Some? then [s[0].value] + Somes(s[1..])
    else Somes(s[1..])
  }

  predicate Nullish(j: Json) {
    j == JNull || j == JUndefined
  }
}
