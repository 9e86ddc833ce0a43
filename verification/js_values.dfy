/**
  The JavaScript values the adapter inspects: JSON-like data, its
  truthiness, and the string JavaScript converts it to when it is used as a
  property key or joined into text.
 */
module JsValues {
  import opened Wrappers
  import Strings

  /** A JSON-like value. Numbers are integers; floating point is not modelled. */
  datatype Value =
    | Str(s: string)
    | Num(n: int)
    | Bool(b: bool)
    | Null
    | Obj(fields: map<string, Value>)
    | Arr(items: seq<Value>)

  /** The own fields of a plain object (a node, a mark, a set of props). */
  type Fields = map<string, Value>

  /**
    JavaScript truthiness; `None` is `undefined`. `undefined` and `null` are
    falsy, and every object and array is truthy, even an empty one.
   */
  predicate Truthy(v: Option<Value>): (b: bool)
    ensures b ==> v.Some? && !v.value.Null?
    ensures v.Some? && (v.value.Obj? || v.value.Arr?) ==> b
    ensures v.Some? && v.value.Str? ==> (b <==> |v.value.s| > 0)
  {
    match v
    case None => false
    case Some(Str(s)) => s != ""
    case Some(Num(n)) => n != 0
    case Some(Bool(b)) => b
    case Some(Null) => false
    case Some(Obj(_)) => true
    case Some(Arr(_)) => true
  }

  function DigitChar(d: nat): (c: char)
    requires d < 10
    ensures '0' <= c <= '9' && c as int - '0' as int == d
  {
    ('0' as int + d) as char
  }

  /** The number a string of decimal digits denotes, most significant first. */
  function DigitsValue(s: string): nat
    requires forall i :: 0 <= i < |s| ==> '0' <= s[i] <= '9'
  {
    if |s| == 0 then 0 else DigitsValue(s[..|s| - 1]) * 10 + (s[|s| - 1] as int - '0' as int)
  }

  /** Decimal digits of a natural number, most significant first. */
  function NatToString(n: nat): (r: string)
    ensures |r| >= 1
    ensures forall i :: 0 <= i < |r| ==> '0' <= r[i] <= '9'
    decreases n
  {
    if n < 10 then [DigitChar(n)] else NatToString(n / 10) + [DigitChar(n % 10)]
  }

  /** The digits `NatToString` writes denote the number itself. */
  lemma {:induction false} NatToStringValue(n: nat)
    ensures DigitsValue(NatToString(n)) == n
    decreases n
  {
    var s := NatToString(n);
    if n < 10 {
      assert s[..0] == [];
    } else {
      NatToStringValue(n / 10);
      assert s[..|s| - 1] == NatToString(n / 10);
    }
  }

  /** `String(n)` for an integer. */
  function IntToString(n: int): string
  {
    if n < 0 then "-" + NatToString(-n) else NatToString(n)
  }

  /**
    `String(v)`: the conversion JavaScript applies to a property key and to
    each element of `Array.prototype.join`. An array converts to its elements
    joined by "," with `null` elements rendered as "".
   */
  function ToJsString(v: Value): string
    decreases v
  {
    match v
    case Str(s) => s
    case Num(n) => IntToString(n)
    case Bool(b) => if b then "true" else "false"
    case Null => "null"
    case Obj(_) => "[object Object]"
    case Arr(items) =>
      Strings.Join(seq(|items|, i requires 0 <= i < |items| =>
                         if items[i].Null? then "" else ToJsString(items[i])), ",")
  }

  /** The property key `obj[k]` uses for a field read as `k`; `undefined` becomes "undefined". */
  function PropertyKey(v: Option<Value>): (k: string)
    ensures v == Some(Null) ==> k == "null"
    ensures v.None? ==> k == "undefined"
    ensures v.Some? && v.value.Str? ==> k == v.value.s
    ensures v.Some? && v.value.Bool? ==> k == (if v.value.b then "true" else "false")
  {
    match v
    case None => "undefined"
    case Some(x) => ToJsString(x)
  }
}
