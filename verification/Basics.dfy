/** What every part of the model shares. */
module Basics {

  datatype Option<+T> = None | Some(value: T)

  const U32 := 0x1_0000_0000

  function Min(a: int, b: int): int {
    if a < b then a else b
  }
}
