/**
 * A model of `serde_json::Value` and of the accessors the core uses on it
 * (`value[key]`, `value[i]`, `as_str`, `as_bool`, `as_f64`, `as_u64`,
 * `as_array`, and the unit-variant form of enum deserialisation).
 */
module JsonValue {
  import opened Errors

  const U64_LIMIT: int := 0x1_0000_0000_0000_0000
  const I64_MIN: int := -0x8000_0000_0000_0000

  type U64 = n: int | 0 <= n < U64_LIMIT
  type NegI64 = n: int | I64_MIN <= n < 0 witness -1

  /** serde_json keeps a number as a u64, a negative i64, or a finite f64. */
  datatype Num = PosInt(u: U64) | NegInt(i: NegI64) | Float(f: real)

  datatype Value =
    | Null
    | Bool(b: bool)
    | Number(n: Num)
    | String(s: string)
    | Array(items: seq<Value>)
    | Object(fields: map<string, Value>)

  /** What `serde_json::from_str` gives: a value, or the parser's error message. */
  datatype Parsed = Parsed(value: Value) | Malformed(message: string)

  /** `value[key]`: the member, or `Null` when `value` is not an object or lacks `key`. */
  function Get(v: Value, key: string): Value {
    if v.Object? && key in v.fields then v.fields[key] else Null
  }

  /** `value[i]`: the element, or `Null` when `value` is not an array or is too short. */
  function At(v: Value, i: nat): Value {
    if v.Array? && i < |v.items| then v.items[i] else Null
  }

  function AsStr(v: Value): Option<string> {
    if v.String? then Some(v.s) else None
  }

  function AsBool(v: Value): Option<bool> {
    if v.Bool? then Some(v.b) else None
  }

  function AsArray(v: Value): Option<seq<Value>> {
    if v.Array? then Some(v.items) else None
  }

  /** `as_f64`: every number, integers included. */
  function AsF64(v: Value): Option<real> {
    match v
    case Number(PosInt(u)) => Some(u as real)
    case Number(NegInt(i)) => Some(i as real)
    case Number(Float(f)) => Some(f)
    case _ => None
  }

  /** `as_u64`: only numbers held as a non-negative integer. */
  function AsU64(v: Value): Option<U64> {
    if v.Number? && v.n.PosInt? then Some(v.n.u) else None
  }

  /** `Value::Object` with the single member `key: Null`. */
  function UnitObject(key: string): Value {
    Object(map[key := Null])
  }

  /**
   * The variant name serde reads when it deserialises a unit-only enum from a
   * `Value`: a string, or an object with exactly one member whose value is null.
   */
  function UnitVariantName(v: Value): Option<string> {
    match v
    case String(s) => Some(s)
    case Object(m) =>
      if |m| == 1 then
        SingleKey(m);
        var k :| k in m;
        if m[k] == Null then Some(k) else None
      else None
    case _ => None
  }

  lemma SingleKey(m: map<string, Value>)
    requires |m| == 1
    ensures forall a, b :: a in m && b in m ==> a == b
  {
    forall a, b | a in m && b in m ensures a == b {
      if a != b {
        assert {a, b} <= m.Keys;
        assert |{a, b}| == 2;
        SubsetCard({a, b}, m.Keys);
      }
    }
  }

  lemma SubsetCard<T>(a: set<T>, b: set<T>)
    requires a <= b
    ensures |a| <= |b|
  {
    assert b == a + (b - a);
  }
}
