/** Types shared by every component of the kernel model. */
module Basics {

  datatype Option<+T> = None | Some(value: T)

  // An unsigned 8-bit value: a scancode, a colour attribute, a byte of memory.
  type byte = x: int | 0 <= x < 0x100

  // The C string terminator.
  const NUL: char := '\0'

  function Spaces(n: nat): string {
    seq(n, _ => ' ')
  }
}
