/** An optional value, used wherever the program has a null, an absent field or a failed parse. */
module Wrappers {
  datatype Option<+T> = None | Some(value: T)

  function Max(a: int, b: int): int { if a < b then b else a }

  function Min(a: int, b: int): int { if a < b then a else b }

  /** For counting. */
  function One(b: bool): nat { if b then 1 else 0 }
}
