/** Small shared types: the optional value used wherever the Swift code has
    an optional (`T?`) or a `try?` that may yield nothing, and Swift's
    `UInt16`. */
module Wrappers {
  datatype Option<+T> = None | Some(value: T)

  /** Swift's `UInt16`: a key code, a UTF-16 code unit. */
  type UInt16 = x: int | 0 <= x < 0x1_0000
}
