/** Machine integers and the small datatypes every other module uses. */
module Basics {

  type byte = x: int | 0 <= x < 0x100
  type uint16 = x: int | 0 <= x < 0x1_0000
  type uint32 = x: int | 0 <= x < 0x1_0000_0000

  const TWO_TO_THE_32 := 0x1_0000_0000

  datatype Option<+T> = None | Some(value: T)

  datatype Result<+T, +E> = Ok(value: T) | Err(error: E)

  /** The 96-bit mapping nonce of section 11.1 of RFC 6887. */
  type Nonce = s: seq<byte> | |s| == 12 witness [0, 0, 0, 0, 0, 0, 0, 0, 0, 0, 0, 0]

  /** What a client and its server call one mapping (`mappingKey`). */
  datatype Key = Key(proto: byte, port: uint16)

  function Zeros(n: nat): (z: seq<byte>)
    ensures |z| == n
  {
    seq(n, _ => 0)
  }
}
