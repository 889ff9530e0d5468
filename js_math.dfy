/** `Math.min` and `Math.max` on the two kinds of number the core uses:
    pixel coordinates and prices (real) and chart times (int). */
module JsMath {

  function Min(a: real, b: real): real { if a <= b then a else b }

  function Max(a: real, b: real): real { if a >= b then a else b }

  function MinInt(a: int, b: int): int { if a <= b then a else b }

  function MaxInt(a: int, b: int): int { if a >= b then a else b }
}
