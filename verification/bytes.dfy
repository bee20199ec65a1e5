/** Bytes, least significant bit first. */
module Bytes {

  const BYTE_BITS := 8

  type Byte = s: seq<bool> | |s| == BYTE_BITS witness seq(BYTE_BITS, _ => false)
}
