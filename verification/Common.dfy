/** Vocabulary shared by the other modules. */
module Common {
  datatype Option<+T> = None | Some(value: T)

  /** Identity of a thread; a machine fixes the finite set of threads that take part in a run. */
  type ThreadId = nat

  /** A 32-bit unsigned word: what the hardware keeps of an unbounded result. */
  const WORD32: nat := 0x1_0000_0000

  function U32(x: int): nat {
    x % WORD32
  }
}
