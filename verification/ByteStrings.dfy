/** Byte strings. */
module ByteStrings {
  newtype byte = x: int | 0 <= x < 256
  type Bytes = seq<byte>

  const NEWLINE: byte := 10
  const RETURN: byte := 13
  const SPACE: byte := 32
}
