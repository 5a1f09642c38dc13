/** JSON values, as the drivers see them once decoded. */
module Json {

  datatype Value =
    | Null
    | Bool(b: bool)
    | Num(n: int)
    | Frac(r: real)
    | Str(s: string)
    | Arr(items: seq<Value>)
    | Obj(fields: map<string, Value>)

  /** `value[key]`: `null` when there is no such field. */
  function At(v: Value, key: string): Value {
    if v.Obj? && key in v.fields then v.fields[key] else Null
  }

  function AsStr(v: Value): string {
    if v.Str? then v.s else ""
  }

  predicate IsU64(v: Value) {
    v.Num? && 0 <= v.n < 0x1_0000_0000_0000_0000
  }

  function AsNat(v: Value): nat {
    if IsU64(v) then v.n else 0
  }
}
