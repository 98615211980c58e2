/**
 * The JSON values the composables handle, and the JavaScript coercions they apply to them:
 * truthiness, `Number(...)`, `String(...)` and `===`.  A key that is absent from a record
 * stands for `undefined`.
 */
module JsValues {
  import opened Wrappers
  import opened Strings

  /** A field value: a string, a number (integers only), `NaN`, or `null`. */
  datatype Value = Str(s: string) | Num(n: int) | NaN | Null

  /** A flat JSON object, or the domain fields of one item. */
  type Record = map<string, Value>

  /** JavaScript truthiness: `''`, `0`, `NaN` and `null` are falsy. */
  predicate Truthy(v: Value) {
    match v
    case Str(s) => s != ""
    case Num(n) => n != 0
    case NaN => false
    case Null => false
  }

  /** `item[key]`, with `None` for `undefined`. */
  function Get(item: Record, key: string): Option<Value> {
    if key in item then Some(item[key]) else None
  }

  /** `item[key]` is truthy (`undefined` is not). */
  predicate TruthyAt(item: Record, key: string) {
    key in item && Truthy(item[key])
  }

  /** `Number(s)` for a string: empty is 0, an optionally signed digit string its value, anything else NaN. */
  function StringToNumber(s: string): (r: Value)
    ensures r.Num? || r.NaN?
    ensures s != "" && AllDigits(s) ==> r == Num(ParseDigits(s))
  {
    if s == "" then Num(0)
    else if AllDigits(s) then Num(ParseDigits(s))
    else if |s| > 1 && s[0] == '-' && AllDigits(s[1..]) then Num(0 - ParseDigits(s[1..]) as int)
    else if |s| > 1 && s[0] == '+' && AllDigits(s[1..]) then Num(ParseDigits(s[1..]))
    else NaN
  }

  /** `Number(v)`: never null, numbers pass through. */
  function ToNumber(v: Value): (r: Value)
    ensures r.Num? || r.NaN?
    ensures v.Num? ==> r == v
  {
    match v
    case Str(s) => StringToNumber(s)
    case Num(n) => v
    case NaN => NaN
    case Null => Num(0)
  }

  /** `item[key] ? Number(item[key]) : null` */
  function NumericOrNull(item: Record, key: string): (r: Value)
    ensures r == Null <==> !TruthyAt(item, key)
    ensures TruthyAt(item, key) ==> r == ToNumber(item[key]) && (r.Num? || r.NaN?)
  {
    if TruthyAt(item, key) then ToNumber(item[key]) else Null
  }

  /** `item[key] || null` */
  function ValueOrNull(item: Record, key: string): (r: Value)
    ensures r == Null || (TruthyAt(item, key) && r == item[key])
    ensures TruthyAt(item, key) ==> r == item[key]
  {
    if TruthyAt(item, key) then item[key] else Null
  }

  /** `String(v)` */
  function Display(v: Value): string {
    match v
    case Str(s) => s
    case Num(n) => IntToString(n)
    case NaN => "NaN"
    case Null => "null"
  }

  /** `a === b`, where `None` is `undefined`; `NaN` equals nothing, not even itself. */
  predicate StrictEquals(a: Option<Value>, b: Option<Value>) {
    a == b && a != Some(NaN)
  }
}
