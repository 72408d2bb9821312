/** JSON values, as far as the gateway inspects them. */
module Json {
  import opened Prelude

  datatype Json =
    | Null
    | Bool(flag: bool)
    | Number(number: int)
    | String(text: string)
    | Array(items: seq<Json>)
    | Object(fields: map<string, Json>)
  {
    /** `Value::get(key)`: a field of an object, nothing on any other value. */
    function Get(key: string): Option<Json> {
      if Object? && key in fields then Some(fields[key]) else None
    }

    /** `Value::as_str`. */
    function AsString(): Option<string> {
      if String? then Some(text) else None
    }

    /** `Value::as_array`. */
    function AsArray(): Option<seq<Json>> {
      if Array? then Some(items) else None
    }

    /** `Value::as_i64`. */
    function AsInt64(): Option<int> {
      if Number? && -0x8000_0000_0000_0000 <= number < 0x8000_0000_0000_0000 then Some(number) else None
    }

    /** `get(key).and_then(as_i64)`. */
    function GetInt64(key: string): Option<int> {
      match Get(key)
      case Some(v) => v.AsInt64()
      case None => None
    }

    /** `get(key).and_then(as_str)`. */
    function GetString(key: string): Option<string> {
      match Get(key)
      case Some(v) => v.AsString()
      case None => None
    }
  }

  /** Rust's `as i32` of an `i64`. */
  function Int32(n: int): int { (n + 0x8000_0000) % 0x1_0000_0000 - 0x8000_0000 }

  /** It is the one 32-bit number that differs from the given one by a multiple of 2 to the 32. */
  lemma {:induction false} Int32Is(n: int, k: int)
    ensures -0x8000_0000 <= Int32(n) < 0x8000_0000
    ensures -0x8000_0000 <= n < 0x8000_0000 ==> Int32(n + k * 4294967296) == n
  {
    if -0x8000_0000 <= n < 0x8000_0000 {
      Turns(n + 0x8000_0000, k);
    }
  }

  lemma {:induction false} Turns(m: int, k: int)
    requires 0 <= m < 4294967296
    ensures (m + k * 4294967296) % 4294967296 == m
  {
  }
}
