/** The ranges of the fixed-width integers the platforms use: Java's `int`, Java's `long` and Swift's `Int`. */
module Limits {
  const INT32_MIN: int := -0x8000_0000
  const INT32_MAX: int := 0x7fff_ffff
  const INT64_MIN: int := -0x8000_0000_0000_0000
  const INT64_MAX: int := 0x7fff_ffff_ffff_ffff
}
