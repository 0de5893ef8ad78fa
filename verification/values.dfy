/**
 * The runtime values an Item can hold. TypeScript types are erased at run time, so an
 * Item declared as holding a string may still be handed a number; the custom-rule guards
 * and the schema checks look at the runtime shape, and this datatype is that shape.
 */
module Values {

  datatype Value =
    | Undefined
    | Null
    | Str(s: string)
    | Num(n: int)
    | Bool(b: bool)
    | Arr(elems: seq<Value>)
    | Obj  // any other object, such as `{}`

  /** JavaScript indexing: element `i`, or `undefined` past the end. */
  function At(es: seq<Value>, i: nat): (r: Value)
    ensures i < |es| ==> r == es[i]
    ensures i >= |es| ==> r == Undefined
  {
    if i < |es| then es[i] else Undefined
  }

  /** JavaScript truthiness (numbers are integers here, so NaN does not arise). */
  predicate Truthy(v: Value) {
    match v
    case Undefined => false
    case Null => false
    case Str(s) => s != ""
    case Num(n) => n != 0
    case Bool(b) => b
    case Arr(_) => true
    case Obj => true
  }

  /** The type names a schema library reports for a value ("Expected string, received number"). */
  function TypeName(v: Value): string {
    match v
    case Undefined => "undefined"
    case Null => "null"
    case Str(_) => "string"
    case Num(_) => "number"
    case Bool(_) => "boolean"
    case Arr(_) => "array"
    case Obj => "object"
  }

  predicate IsDigitChar(c: char) {
    '0' <= c <= '9'
  }

  /** The value of a decimal digit character. */
  function DigitValue(c: char): int {
    c as int - '0' as int
  }

  function DigitChar(d: nat): (c: char)
    requires d < 10
    ensures IsDigitChar(c) && DigitValue(c) == d
  {
    "0123456789"[d]
  }

  /** The number a string of decimal digits denotes, most significant digit first. */
  function DigitsValue(s: string): int {
    if |s| == 0 then 0 else 10 * DigitsValue(s[..|s| - 1]) + DigitValue(s[|s| - 1])
  }

  /** The number a decimal numeral denotes, with an optional leading '-'. */
  function DecimalValue(s: string): int {
    if |s| > 0 && s[0] == '-' then -DigitsValue(s[1..]) else DigitsValue(s)
  }

  /**
   * Decimal rendering of a natural number, as JavaScript prints an integer-valued number:
   * a canonical numeral (no leading zero) that denotes `n`.
   */
  function NatToString(n: nat): (r: string)
    ensures |r| > 0
    ensures forall k :: 0 <= k < |r| ==> IsDigitChar(r[k])
    ensures |r| > 1 ==> r[0] != '0'
    ensures DigitsValue(r) == n
  {
    if n < 10 then [DigitChar(n)]
    else
      var r := NatToString(n / 10) + [DigitChar(n % 10)];
      assert r[..|r| - 1] == NatToString(n / 10);
      r
  }

  /** Decimal rendering of an integer, with a leading '-' for negative values; it denotes `i`. */
  function IntToString(i: int): (r: string)
    ensures |r| > 0
    ensures i < 0 <==> r[0] == '-'
    ensures forall k :: 0 < k < |r| ==> IsDigitChar(r[k])
    ensures DecimalValue(r) == i
  {
    if i < 0 then
      var r := "-" + NatToString(-i);
      assert r[1..] == NatToString(-i);
      r
    else NatToString(i)
  }

  /** Distinct integers render differently, so a bound's message identifies the bound. */
  lemma IntToStringInjective(i: int, j: int)
    ensures IntToString(i) == IntToString(j) <==> i == j
  {
  }
}
