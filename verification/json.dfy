/** The untyped JSON value carried as message data and as metadata properties
    (serde_json's `Value`). Only integral numbers are represented. */
module Json {

  datatype Value =
    | Null
    | Bool(b: bool)
    | Number(n: int)
    | String(s: string)
    | Array(items: seq<Value>)
    | Object(fields: map<string, Value>)

  const I64Min: int := -0x8000_0000_0000_0000
  const I64Max: int := 0x7FFF_FFFF_FFFF_FFFF

  predicate InI64(n: int) {
    I64Min <= n <= I64Max
  }
}
