/** Plain values shared by the whole driver model. */
module Types {

  /** An unsigned 8-bit quantity (`uint8_t`): pin numbers, register parameters, PWM duty. */
  newtype uint8 = x: int | 0 <= x < 256

  /** The status type returned by the controller-level operations (`ILI9341_STAT_t`).
      Only `Nominal` is named by the driver; every other value is some failure. */
  datatype Status = Nominal | Failure(code: nat)

  /** A digital output level. */
  datatype Level = Low | High

  /** A C pointer as far as the driver cares: null, or some address. */
  datatype Ptr = Null | Address(addr: nat)

  /** An 18-bit colour as the driver builds it locally (one byte per channel). */
  datatype Color18 = Color18(r: uint8, g: uint8, b: uint8)

  const Black: Color18 := Color18(0, 0, 0)
}
