/**
 * Globally unique identifiers. A Guid is a 128-bit value; the all-zero value
 * `Empty` is the sentinel an aggregate carries before it has been created.
 */
module Guids {

  const GuidBound: nat := 0x1_0000_0000_0000_0000_0000_0000_0000_0000

  type U128 = x: nat | x < GuidBound

  /** The identifier, read as the 32-digit hexadecimal number its text shows. */
  datatype Guid = Guid(bits: U128)

  /** The nil identifier, `00000000-0000-0000-0000-000000000000`. */
  const Empty: Guid := Guid(0)

  const HexDigits: string := "0123456789abcdef"

  /** The `width` low-order hexadecimal digits of `n`, most significant first. */
  function Hex(n: nat, width: nat): (s: string)
    ensures |s| == width
    decreases width
  {
    if width == 0 then "" else Hex(n / 16, width - 1) + [HexDigits[n % 16]]
  }

  /** The default text of an identifier: lower-case digits grouped 8-4-4-4-12. */
  function GuidText(g: Guid): (s: string)
    ensures |s| == 36
  {
    var digits := Hex(g.bits, 32);
    digits[..8] + "-" + digits[8..12] + "-" + digits[12..16] + "-" + digits[16..20] + "-" + digits[20..]
  }
}
