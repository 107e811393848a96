/** Go's fixed-width integers and the conversions the model needs. */
module GoTypes {

  const TwoTo32: int := 0x1_0000_0000

  type int32 = x: int | -0x8000_0000 <= x < 0x8000_0000
  type uint32 = x: int | 0 <= x < 0x1_0000_0000
  type int64 = x: int | -0x8000_0000_0000_0000 <= x < 0x8000_0000_0000_0000

  /** An IEEE-754 single, kept as its bit pattern: the model only copies it. */
  datatype Float32 = Float32(bits: bv32)

  /** The float32 zero value, +0.0. */
  const Float32Zero: Float32 := Float32(0)

  /** Go's `int32(x)` conversion: keep the low 32 bits and read them as two's complement. */
  function ToInt32(x: int): (r: int32)
    ensures (x - r) % TwoTo32 == 0
    ensures -0x8000_0000 <= x < 0x8000_0000 ==> r == x
  {
    var low := x % TwoTo32;
    if low < 0x8000_0000 then low else low - TwoTo32
  }
}
