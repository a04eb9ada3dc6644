/**
 * JavaScript values as the application handles them: JSON-like objects read
 * from storage, the database or a model reply, with the language's truthiness,
 * `||`, `??` and `String(v)` conversions. Numbers are integers here; the
 * fractional values the application touches are modelled with `real` where
 * they occur.
 */
module Js {
  import Text

  datatype Value =
    | Undefined
    | Null
    | Bool(b: bool)
    | Num(n: int)
    | Str(s: string)
    | Arr(items: seq<Value>)
    | Obj(fields: map<string, Value>)

  /** A plain object: property name to value; a missing name reads as `undefined`. */
  type Record = map<string, Value>

  function Get(r: Record, k: string): Value
  {
    if k in r then r[k] else Undefined
  }

  /** `v?.k`: a property of an object, `undefined` on anything else. */
  function Field(v: Value, k: string): Value
  {
    if v.Obj? then Get(v.fields, k) else Undefined
  }

  predicate Truthy(v: Value)
  {
    match v
    case Undefined => false
    case Null => false
    case Bool(b) => b
    case Num(n) => n != 0
    case Str(s) => s != ""
    case Arr(_) => true
    case Obj(_) => true
  }

  predicate IsNullish(v: Value) { v.Undefined? || v.Null? }

  /** `a || b` */
  function Or(a: Value, b: Value): Value
  {
    if Truthy(a) then a else b
  }

  /** `a ?? b` */
  function Coalesce(a: Value, b: Value): Value
  {
    if IsNullish(a) then b else a
  }

  /** `String(v)`, also what a template literal `${v}` prints. */
  function ToStr(v: Value): string
  {
    match v
    case Undefined => "undefined"
    case Null => "null"
    case Bool(b) => if b then "true" else "false"
    case Num(n) => Text.IntToString(n)
    case Str(s) => s
    case Arr(items) => Text.Join(ItemStrings(items), ",")
    case Obj(_) => "[object Object]"
  }

  /** Array elements as `Array.prototype.join` prints them: nullish elements become "". */
  function ItemStrings(items: seq<Value>): seq<string>
    decreases items
  {
    if items == [] then []
    else [if IsNullish(items[0]) then "" else ToStr(items[0])] + ItemStrings(items[1..])
  }

  /** A string-valued property read with `obj.k || fallback`. */
  function StrOr(r: Record, k: string, fallback: string): string
  {
    var v := Get(r, k);
    if Truthy(v) then ToStr(v) else fallback
  }

  /** `{...a, ...b}`: every property of `b`, and those of `a` that `b` lacks. */
  function Spread(a: Record, b: Record): (r: Record)
    ensures forall k :: k in r <==> k in a || k in b
    ensures forall k :: k in b ==> r[k] == b[k]
    ensures forall k :: k in a && k !in b ==> r[k] == a[k]
  {
    a + b
  }

  /** `Math.round`: the nearest integer, halves rounded up. */
  function Round(x: real): (r: int)
    ensures r as real - 0.5 <= x < r as real + 0.5
  {
    (x + 0.5).Floor
  }

  /** `Math.round(x)` is the one integer within half a unit below and strictly less than half above. */
  lemma RoundUnique(x: real, r: int)
    requires r as real - 0.5 <= x < r as real + 0.5
    ensures Round(x) == r
  {
  }

  lemma RoundMonotone(x: real, y: real)
    requires x <= y
    ensures Round(x) <= Round(y)
  {
  }

  /** `a % n` is the `r` of any `a == q * n + r` with `0 <= r < n`. */
  lemma {:induction false} ModUnique(a: int, n: int, q: int, r: int)
    requires n > 0 && 0 <= r < n && a == q * n + r
    ensures a % n == r
  {
    var d := q - a / n;
    assert d * n == a % n - r;
    assert (d >= 1 ==> d * n >= n) && (d <= -1 ==> d * n <= -n);
  }

  /** Indexing with `% n` repeats with period `n`. */
  lemma {:induction false} ModPeriod(a: int, n: int)
    requires n > 0
    ensures (a + n) % n == a % n
  {
    ModUnique(a + n, n, a / n + 1, a % n);
  }

  function Min(a: int, b: int): int { if a <= b then a else b }

  function Max(a: int, b: int): int { if a >= b then a else b }
}
