/** The JavaScript values that flow between the storage engine, the action
    dispatcher and the response handler: flat JSON records, their scalar field
    values, and the few pieces of JavaScript semantics the core relies on
    (truthiness, `String(x)`, `toLowerCase`, `indexOf`). */
module JsValues {

  datatype Option<+T> = None | Some(value: T)

  /** A scalar field value of a record as read back from JSON.
      `Date(t)` is a timestamp taken from the clock counter `t`. */
  datatype Value = Null | Bool(b: bool) | Num(n: int) | Str(s: string) | Date(t: nat)

  /** A flat JSON object: field name to value. An absent key is `undefined`. */
  type Record = map<string, Value>

  /** A parsed query string, its entries in the order a `for...in` loop visits
      the keys of the parsed object: that order is taken as given. */
  type Query = seq<(string, string)>

  /** JavaScript truthiness of a value. */
  predicate Truthy(v: Value)
  {
    match v
    case Null => false
    case Bool(b) => b
    case Num(n) => n != 0
    case Str(s) => s != ""
    case Date(_) => true
  }

  /** `a || b` where either side may be `undefined` (None). */
  function Or(a: Option<Value>, b: Option<Value>): (r: Option<Value>)
    ensures a.Some? && Truthy(a.value) ==> r == a
    ensures !(a.Some? && Truthy(a.value)) ==> r == b
  {
    if a.Some? && Truthy(a.value) then a else b
  }

  /** `r[k]`, with `undefined` as None. */
  function Get(r: Record, k: string): (v: Option<Value>)
    ensures v.Some? <==> k in r
    ensures v.Some? ==> v.value == r[k]
  {
    if k in r then Some(r[k]) else None
  }

  function DigitChar(d: nat): (c: char)
    requires d < 10
    ensures '0' <= c <= '9'
  {
    ('0' as int + d) as char
  }

  /** Decimal notation of a natural number, without leading zeros. */
  function Digits(n: nat): (s: string)
    ensures |s| >= 1
    ensures forall i :: 0 <= i < |s| ==> '0' <= s[i] <= '9'
  {
    if n < 10 then [DigitChar(n)] else Digits(n / 10) + [DigitChar(n % 10)]
  }

  /** `String(v)`: the text `toString` gives for a value. */
  function ToText(v: Value): string
  {
    match v
    case Null => "null"
    case Bool(b) => if b then "true" else "false"
    case Num(n) => if n < 0 then "-" + Digits(-n) else Digits(n)
    case Str(s) => s
    case Date(t) => Digits(t)
  }

  function LowerChar(c: char): char
  {
    if 'A' <= c <= 'Z' then (c as int - 'A' as int + 'a' as int) as char else c
  }

  /** `s.toLowerCase()`, on the ASCII letters. */
  function Lower(s: string): (r: string)
    ensures |r| == |s|
    ensures forall i :: 0 <= i < |s| ==> r[i] == LowerChar(s[i])
  {
    seq(|s|, i requires 0 <= i < |s| => LowerChar(s[i]))
  }

  predicate OccursAt(hay: string, needle: string, i: int)
  {
    0 <= i && i + |needle| <= |hay| && hay[i..i + |needle|] == needle
  }

  /** `hay.indexOf(needle) !== -1` */
  predicate Contains(hay: string, needle: string)
  {
    exists i | 0 <= i <= |hay| - |needle| :: OccursAt(hay, needle, i)
  }

  /** The empty string occurs in every string (at index 0). */
  lemma EmptyOccursEverywhere(hay: string)
    ensures Contains(hay, "")
  {
    assert OccursAt(hay, "", 0);
  }

  /** What an action settles with when it resolves: a list of records, one
      record, or the `null`/`undefined` the store returns for some actions. */
  datatype Payload = Many(items: seq<Record>) | One(item: Record) | JsNull | JsUndefined

  /** Why an action was rejected: the dispatcher's own `{error: ...}` object,
      which has no `message`, or a thrown error carrying a `message`. */
  datatype Reason = Invalid(error: string) | Thrown(message: string)

  /** How an action's promise settles. */
  datatype Settlement = Fulfilled(payload: Payload) | Rejected(reason: Reason)
}
