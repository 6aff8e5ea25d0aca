/** JSON values and the conversions the client asks of them. */
module JsonValues {
  import opened Faults

  type int32 = x: int | -0x8000_0000 <= x < 0x8000_0000
  type uint32 = x: int | 0 <= x < 0x1_0000_0000

  datatype Json =
    | JNull
    | JBool(b: bool)
    | JInt(n: int)
    | JFloat(r: real)
    | JString(s: string)
    | JArray(items: seq<Json>)
    | JObject(members: map<string, Json>)

  const EMPTY_OBJECT: Json := JObject(map[])

  /** static_cast to a 32-bit type keeps the low 32 bits. */
  function ToUint32(n: int): uint32 {
    n % 0x1_0000_0000
  }

  function ToInt32(n: int): int32 {
    var u := ToUint32(n);
    if u < 0x8000_0000 then u else u - 0x1_0000_0000
  }

  /** Conversion of a floating value drops the fraction. */
  function Truncate(r: real): int {
    if r >= 0.0 then r.Floor else -((-r).Floor)
  }

  function GetInt32(j: Json): (r: Result<int32>) {
    match j
    case JInt(n) => Ok(ToInt32(n))
    case JBool(b) => Ok(if b then 1 else 0)
    case JFloat(r) =>
      var t := Truncate(r);
      if -0x8000_0000 <= t < 0x8000_0000 then Ok(t) else Err(Undefined)
    case _ => Err(TypeMismatch)
  }

  function GetUint32(j: Json): (r: Result<uint32>) {
    match j
    case JInt(n) => Ok(ToUint32(n))
    case JBool(b) => Ok(if b then 1 else 0)
    case JFloat(r) =>
      var t := Truncate(r);
      if 0 <= t < 0x1_0000_0000 then Ok(t) else Err(Undefined)
    case _ => Err(TypeMismatch)
  }

  function GetString(j: Json): (r: Result<string>) {
    if j.JString? then Ok(j.s) else Err(TypeMismatch)
  }

  /** Message::Field, which checks the index before it converts. */
  function Field(fields: seq<Json>, index: nat): (r: Result<Json>) {
    if index < |fields| then Ok(fields[index]) else Err(OutOfRange)
  }
}
