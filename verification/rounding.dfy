/** Python's built-in `round(x, n)`, which the pipeline applies to every
    score it reports, for n = 1 and n = 2. */
module Rounding {

  /** The nearest whole number, a tie going up. */
  function Nearest(v: real): int {
    (v + 0.5).Floor
  }

  /** `round(x, 1)`: the nearest multiple of 0.1. */
  function Round1(x: real): real {
    Nearest(x * 10.0) as real / 10.0
  }

  /** `round(x, 2)`: the nearest multiple of 0.01. */
  function Round2(x: real): real {
    Nearest(x * 100.0) as real / 100.0
  }

  /** The nearest whole number is at most half away, keeps order and leaves
      whole numbers alone. */
  lemma NearestFacts(v: real, w: real, n: int)
    ensures v - 0.5 < Nearest(v) as real <= v + 0.5
    ensures v <= w ==> Nearest(v) <= Nearest(w)
    ensures Nearest(n as real) == n
  {
  }

  /** Rounding to one decimal keeps order, moves a value by at most 0.05 and
      keeps whole numbers. */
  lemma Round1Facts(x: real, y: real, n: int)
    ensures x - 0.05 < Round1(x) <= x + 0.05
    ensures x <= y ==> Round1(x) <= Round1(y)
    ensures Round1(n as real) == n as real
  {
    NearestFacts(x * 10.0, y * 10.0, n * 10);
  }

  /** Rounding to two decimals keeps order, moves a value by at most 0.005
      and keeps whole numbers. */
  lemma Round2Facts(x: real, y: real, n: int)
    ensures x - 0.005 < Round2(x) <= x + 0.005
    ensures x <= y ==> Round2(x) <= Round2(y)
    ensures Round2(n as real) == n as real
  {
    NearestFacts(x * 100.0, y * 100.0, n * 100);
  }

  /** A value between two whole numbers rounds to a value between them, so
      rounding after a clamp keeps the clamp's bounds. */
  lemma RoundWithin(x: real, lo: int, hi: int)
    requires lo as real <= x <= hi as real
    ensures lo as real <= Round1(x) <= hi as real
    ensures lo as real <= Round2(x) <= hi as real
  {
    Round1Facts(lo as real, x, lo);
    Round1Facts(x, hi as real, hi);
    Round2Facts(lo as real, x, lo);
    Round2Facts(x, hi as real, hi);
  }
}
