/** JSON values, as far as the close-record codec looks at them. */
module Json {
  import opened Prelude

  /** A JSON number: only a non-negative integer that fits a `u64` answers `as_u64`. */
  datatype Number = Unsigned(u: U64) | Negative(i: int) | Fractional(r: real)

  datatype Value =
    | Null
    | Bool(b: bool)
    | Num(n: Number)
    | Str(s: string)
    | Arr(items: seq<Value>)
    | Obj(fields: map<string, Value>)
  {
    function AsU64(): Option<U64> {
      if Num? && n.Unsigned? then Some(n.u) else None
    }

    function AsStr(): Option<string> {
      if Str? then Some(s) else None
    }

    /** `obj.get(key)` when this is an object, `None` otherwise. */
    function Get(key: string): Option<Value> {
      if Obj? && key in fields then Some(fields[key]) else None
    }
  }
}
