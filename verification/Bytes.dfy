/** Bytes, and the big-endian words made of them. */
module Bytes {

  type Byte = x: int | 0 <= x < 256

  function BigEndian(high: nat, low: nat): nat { high * 256 + low }
}
