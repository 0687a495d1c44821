/** JSON documents as `serde_json::Value` holds them, with its untyped readers. */
module Json {
  datatype Option<+T> = None | Some(value: T)

  /** An integer and a floating number never compare equal, even at the same value. */
  datatype Number = Int(i: int) | Float(r: real)

  datatype Value =
    | Null
    | Bool(b: bool)
    | Num(n: Number)
    | Str(s: string)
    | Arr(items: seq<Value>)
    | Obj(members: map<string, Value>)

  /** `value.get(key)`: only an object has named members. */
  function Get(v: Value, key: string): Option<Value> {
    if v.Obj? && key in v.members then Some(v.members[key]) else None
  }

  function AsStr(v: Option<Value>): Option<string> {
    if v.Some? && v.value.Str? then Some(v.value.s) else None
  }

  function AsInt(v: Option<Value>): Option<int> {
    if v.Some? && v.value.Num? && v.value.n.Int? then Some(v.value.n.i) else None
  }

  function AsNat(v: Option<Value>): Option<nat> {
    var i := AsInt(v);
    if i.Some? && i.value >= 0 then Some(i.value) else None
  }

  function AsArray(v: Option<Value>): Option<seq<Value>> {
    if v.Some? && v.value.Arr? then Some(v.value.items) else None
  }

  function AsObject(v: Option<Value>): Option<map<string, Value>> {
    if v.Some? && v.value.Obj? then Some(v.value.members) else None
  }

  function OrElse<T>(v: Option<T>, default: T): T {
    if v.Some? then v.value else default
  }
}
