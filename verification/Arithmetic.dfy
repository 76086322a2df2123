/** The two built-in functions of Python the models share. */
module Arithmetic {
  function Max(a: int, b: int): int { if a < b then b else a }

  function Min(a: int, b: int): int { if a < b then a else b }
}
