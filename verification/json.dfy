/** JSON values as the connector sees them: `serde_json::Value` without its text. */
module Json {
  datatype Option<+T> = None | Some(value: T)

  datatype Result<+T, +E> = Ok(value: T) | Err(error: E)

  /** `serde_json` keeps integers and floating-point numbers apart: 1 and 1.0 are different values. */
  datatype Number = Int(i: int) | Float(r: real) {
    function AsReal(): real {
      match this
      case Int(i) => i as real
      case Float(r) => r
    }
  }

  type Fields = map<string, Value>

  datatype Value =
    | Null
    | Bool(b: bool)
    | Num(n: Number)
    | Str(s: string)
    | Arr(items: seq<Value>)
    | Obj(fields: Fields)
  {
    /** The member `key`; anything but an object has no members. */
    function Get(key: string): Option<Value> {
      if Obj? && key in fields then Some(fields[key]) else None
    }

    /** The member `key`, null when there is none. */
    function GetOrNull(key: string): Value {
      if Get(key).Some? then Get(key).value else Null
    }

    function AsStr(): Option<string> {
      if Str? then Some(s) else None
    }

    function AsU64(): Option<nat> {
      if Num? && n.Int? && 0 <= n.i < U64_LIMIT then Some(n.i) else None
    }

    function GetStr(key: string): Option<string> {
      if Get(key).Some? then Get(key).value.AsStr() else None
    }

    /** A string member that is not empty. */
    function GetNonEmpty(key: string): Option<string> {
      if GetStr(key) == Some("") then None else GetStr(key)
    }
  }

  const U64_LIMIT: int := 0x1_0000_0000_0000_0000

  /** Reading a member: the value of that key of an object, and only of the kind asked for. */
  lemma MembersAre(v: Value, key: string)
    ensures forall x :: v.Get(key) == Some(x) <==> v.Obj? && key in v.fields && v.fields[key] == x
    ensures forall s :: v.GetStr(key) == Some(s) <==> v.Obj? && key in v.fields && v.fields[key] == Str(s)
    ensures forall s ::
      v.GetNonEmpty(key) == Some(s) <==> s != "" && v.Obj? && key in v.fields && v.fields[key] == Str(s)
    ensures v.GetOrNull(key) == if v.Obj? && key in v.fields then v.fields[key] else Null
  {
  }

  /** Numbers compare by their values. */
  lemma RealsAre(m: Number, n: Number)
    ensures m.Int? && n.Int? ==> (m.AsReal() < n.AsReal() <==> m.i < n.i)
    ensures m.Float? ==> m.AsReal() == m.r
  {
  }

  /** The unsigned 64-bit integers, and nothing else, are read as such. */
  lemma UnsignedAre(v: Value, n: nat)
    ensures v.AsU64() == Some(n) <==> v == Num(Int(n)) && n < 18446744073709551616
  {
  }
}
