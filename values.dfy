/** The dynamically typed values (`any`) that records carry in their
    `map[string]any` payloads. */
module Values {
  newtype byte = x: int | 0 <= x < 256

  datatype Value =
    | Str(s: string)          // a Go string
    | Bytes(b: seq<byte>)     // a Go []byte
    | Number(n: int)          // any other JSON scalar (a number, say)
}
