/** Bytes and byte strings, as Go's `byte` and `[]byte`. */
module ByteStrings {

  newtype byte = x: int | 0 <= x < 0x100

  type Bytes = seq<byte>
}
