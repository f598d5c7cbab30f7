/**
 * Untyped JavaScript values as the sources see them after `JSON.parse` or
 * `request.json()`, with the property reads, `??` chains and `Number(...)`
 * conversions the defensive decoders apply to them.
 */
module JsValue {
  import opened Common

  /** A JavaScript number. Finite numbers are exact reals; IEEE rounding is not modelled. */
  datatype Num = Finite(value: real) | NaN | PosInfinity | NegInfinity

  /** An untyped payload. Objects keep their entries in insertion order. */
  datatype Json =
    | JNull
    | JBool(b: bool)
    | JNum(n: real)
    | JStr(s: string)
    | JArr(items: seq<Json>)
    | JObj(entries: seq<(string, Json)>)

  /** `typeof v === "object" && v !== null`: true for objects AND arrays. */
  predicate IsRecord(v: Json) {
    v.JArr? || v.JObj?
  }

  /** `isRecord` applied to a property read that may be `undefined`. */
  predicate IsRecordValue(o: Option<Json>) {
    o.Some? && IsRecord(o.value)
  }

  /** `Array.isArray` applied to a property read that may be `undefined`. */
  predicate IsArrayValue(o: Option<Json>) {
    o.Some? && o.value.JArr?
  }

  /** The value of the first entry named `key`, or `None` (undefined). */
  function Lookup(entries: seq<(string, Json)>, key: string): Option<Json> {
    if |entries| == 0 then None
    else if entries[0].0 == key then Some(entries[0].1)
    else Lookup(entries[1..], key)
  }

  /** `v[key]` for a value already known to be a record; arrays carry none of the names read here. */
  function Get(v: Json, key: string): Option<Json> {
    if v.JObj? then Lookup(v.entries, key) else None
  }

  /** `o[key]` where `o` itself may be undefined, as in `a?.b`. */
  function GetOpt(o: Option<Json>, key: string): Option<Json> {
    if o.Some? then Get(o.value, key) else None
  }

  /** `null` or `undefined`: the values `??` falls through. */
  predicate Nullish(o: Option<Json>) {
    o.None? || o.value.JNull?
  }

  /** `vs[0] ?? vs[1] ?? … ?? vs[n-1]`: the first non-nullish operand, else the last operand. */
  function Coalesce(vs: seq<Option<Json>>): Option<Json> {
    if |vs| == 0 then None
    else if |vs| == 1 || !Nullish(vs[0]) then vs[0]
    else Coalesce(vs[1..])
  }

  /** A `??` chain yields the first operand that is neither null nor undefined. */
  lemma {:induction false} CoalesceFirstPresent(vs: seq<Option<Json>>, i: nat)
    requires i < |vs| && !Nullish(vs[i])
    requires forall j :: 0 <= j < i ==> Nullish(vs[j])
    ensures Coalesce(vs) == vs[i]
  {
    if i > 0 {
      assert Nullish(vs[0]);
      CoalesceFirstPresent(vs[1..], i - 1);
    }
  }

  /** A `??` chain whose operands are all nullish yields a nullish value. */
  lemma {:induction false} CoalesceAllNullish(vs: seq<Option<Json>>)
    requires forall j :: 0 <= j < |vs| ==> Nullish(vs[j])
    ensures Nullish(Coalesce(vs))
  {
    if |vs| > 1 {
      CoalesceAllNullish(vs[1..]);
    }
  }

  /** `typeof o === "string" ? o : undefined`. */
  function AsString(o: Option<Json>): Option<string> {
    if o.Some? && o.value.JStr? then Some(o.value.s) else None
  }

  /** `Number(o)`. String parsing (`StringToNumber`) is the injected `strToNum`. */
  function ToNumber(o: Option<Json>, strToNum: string -> Num): Num {
    match o
    case None => NaN
    case Some(v) => ValueToNumber(v, strToNum)
  }

  function ValueToNumber(v: Json, strToNum: string -> Num): Num {
    match v
    case JNull => Finite(0.0)
    case JBool(b) => Finite(if b then 1.0 else 0.0)
    case JNum(n) => Finite(n)
    case JStr(s) => strToNum(s)
    case JArr(items) =>
      // an array converts through its comma-joined text; any comma makes it NaN
      if |items| == 0 then Finite(0.0)
      else if |items| == 1 then ElementToNumber(items[0], strToNum)
      else NaN
    case JObj(_) => NaN
  }

  /** `Number(String(x))` for the single element of an array. */
  function ElementToNumber(x: Json, strToNum: string -> Num): Num {
    match x
    case JNull => Finite(0.0)
    case JBool(_) => NaN
    case JNum(n) => Finite(n)
    case JStr(s) => strToNum(s)
    case JArr(items) =>
      if |items| == 0 then Finite(0.0)
      else if |items| == 1 then ElementToNumber(items[0], strToNum)
      else NaN
    case JObj(_) => NaN
  }

  /** `Number.isFinite(n) && n > 0`. */
  predicate IsPositiveFinite(n: Num) {
    n.Finite? && n.value > 0.0
  }

  /** `Math.round(x)` for a finite `x`: halves round toward positive infinity. */
  function Round(x: real): (r: int)
    ensures x - 0.5 < r as real <= x + 0.5
  {
    (x + 0.5).Floor
  }
}
