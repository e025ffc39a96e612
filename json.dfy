/**
 * JavaScript values as they reach the audit subsystem: request bodies, response
 * payloads and query strings. Numbers are integers; `undefined` and `null` are one
 * value, Null, which is also what reading a missing property gives.
 */
module JsValues {
  import opened Strings

  datatype Json =
    | Null
    | Bool(b: bool)
    | Num(n: int)
    | Str(s: string)
    | Arr(items: seq<Json>)
    | Obj(props: map<string, Json>)

  /**
   * JavaScript truthiness: what `if (v)` and `v || w` test. The falsy values are null
   * (and undefined), false, 0 and the empty string; every array and object is truthy.
   */
  predicate Truthy(v: Json): (t: bool)
    ensures !t <==> v in {Null, Bool(false), Num(0), Str("")}
  {
    match v
    case Null => false
    case Bool(b) => b
    case Num(n) => n != 0
    case Str(s) => s != ""
    case Arr(_) => true
    case Obj(_) => true
  }

  /** The property read `v.key`; Null when v is not an object or lacks the key. */
  function Get(v: Json, key: string): (r: Json)
    ensures r != Null ==> v.Obj? && key in v.props && r == v.props[key]
  {
    if v.Obj? && key in v.props then v.props[key] else Null
  }

  /** `a || b`: the first operand when it is truthy, otherwise the second. */
  function Or(a: Json, b: Json): (r: Json)
    ensures Truthy(r) <==> Truthy(a) || Truthy(b)
    ensures r == a || r == b
  {
    if Truthy(a) then a else b
  }

  /** `v.toString()` on a non-null value, or the text `join` gives an array element (empty for Null). */
  function ToStr(v: Json): (r: string)
    ensures v.Null? ==> r == ""
    ensures v.Str? ==> r == v.s
    ensures v.Num? && v.n >= 0 ==> IsDigits(r) && DecimalValue(r) == v.n
    ensures v.Num? && v.n < 0 ==> |r| >= 2 && r[0] == '-' && IsDigits(r[1..]) && DecimalValue(r[1..]) == -v.n
    ensures v.Arr? && |v.items| == 1 ==> r == ToStr(v.items[0])
    ensures v.Obj? ==> r == "[object Object]"
    decreases v
  {
    match v
    case Null => ""
    case Bool(b) => if b then "true" else "false"
    case Num(n) => IntToDecimal(n)
    case Str(s) => s
    case Arr(items) => Join(seq(|items|, i requires 0 <= i < |items| => ToStr(items[i])), ',')
    case Obj(_) => "[object Object]"
  }

  /** The object `{ ...items }` for an array-like value: index keys in decimal. */
  function IndexMap(items: seq<Json>): (m: map<string, Json>)
    ensures forall i :: 0 <= i < |items| ==> NatToDecimal(i) in m && m[NatToDecimal(i)] == items[i]
    ensures forall k :: k in m ==> exists i :: 0 <= i < |items| && k == NatToDecimal(i)
  {
    NatToDecimalInjective();
    map i | 0 <= i < |items| :: NatToDecimal(i) := items[i]
  }

  /** The own enumerable properties the spread `{ ...v }` copies. */
  function OwnProps(v: Json): (m: map<string, Json>)
    ensures v.Obj? ==> m == v.props
    ensures v.Null? || v.Bool? || v.Num? ==> m == map[]
    ensures v.Arr? ==> forall i :: 0 <= i < |v.items| ==> NatToDecimal(i) in m && m[NatToDecimal(i)] == v.items[i]
    ensures v.Str? ==> forall i :: 0 <= i < |v.s| ==> NatToDecimal(i) in m && m[NatToDecimal(i)] == Str([v.s[i]])
    ensures v.Arr? ==> forall k :: k in m ==> exists i :: 0 <= i < |v.items| && k == NatToDecimal(i)
    ensures v.Str? ==> forall k :: k in m ==> exists i :: 0 <= i < |v.s| && k == NatToDecimal(i)
  {
    match v
    case Obj(props) => props
    case Arr(items) => IndexMap(items)
    case Str(s) =>
      var chars := seq(|s|, i requires 0 <= i < |s| => Str([s[i]]));
      assert forall i :: 0 <= i < |s| ==> chars[i] == Str([s[i]]);
      IndexMap(chars)
    case _ => map[]
  }
}
