/**
 * The parsed JSON document as the mappers see it (System.Text.Json's JsonElement).
 * A number keeps what the two numeric accessors the mappers call make of it.
 */
module Json {
  import opened Wrappers

  const INT32_MIN: int := -0x8000_0000
  const INT32_MAX: int := 0x7FFF_FFFF

  /** A 32-bit signed integer (C# int). */
  type Int32 = x: int | INT32_MIN <= x <= INT32_MAX

  /** A C# decimal held exactly: `unscaled / 10^scale`, so 1500.50 is Decimal(150050, 2). */
  datatype Decimal = Decimal(unscaled: int, scale: nat)

  /**
   * A JSON number: `int32` is what JsonElement.GetInt32 returns (None where it throws),
   * `decimal` what JsonElement.GetDecimal returns (None where it throws).
   */
  datatype Number = Number(int32: Option<Int32>, decimal: Option<Decimal>)

  datatype Json =
    | JNull
    | JBool(b: bool)
    | JNum(n: Number)
    | JStr(s: string)
    | JArr(items: seq<Json>)
    | JObj(members: map<string, Json>)
}
