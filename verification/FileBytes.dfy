/** The bytes of rollout files. */
module FileBytes {
  newtype Byte = x: int | 0 <= x < 256

  type Bytes = seq<Byte>

  const LF: Byte := 10
  const CR: Byte := 13
}
