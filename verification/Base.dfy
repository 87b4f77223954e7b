/** Types, constants and 32-bit tick arithmetic shared by the whole kernel model. */
module Base {
  datatype Option<+T> = None | Some(value: T)

  /** The status codes a blocking primitive can return (nimble_types.h). */
  datatype Status = OK | InvalidArg | Timeout | NotOwner | Full | Empty

  type Tid = nat    // a task, identified by its control block
  type Item = int   // a queue item, opaque to the kernel

  const U32: int := 0x1_0000_0000
  const HALF: int := 0x8000_0000
  const WAIT_FOREVER: nat := 0xFFFF_FFFF
  const NO_WAIT: nat := 0
  const MAX_PRIORITIES: nat := 32
  const IDLE: Tid := 0

  /** `(int32_t)(a - b)` on unsigned 32-bit operands. */
  function SignedDiff(a: nat, b: nat): int {
    var d := (a as int - b as int) % U32;
    if d < HALF then d else d - U32
  }

  lemma ModShift(x: int, q: int)
    ensures (x + U32 * q) % U32 == x % U32
  {}
}
