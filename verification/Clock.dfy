/** Stock result shape used by every module. */
module Wrappers {
  datatype Option<+T> = None | Some(value: T)
}

/**
 The two clocks a Go `time.Time` carries. Wall time may step either way; the
 monotonic reading never goes back. Both are integer nanoseconds.
 */
module Clock {

  const NS := 1_000_000_000

  datatype Instant = Instant(wall: int, mono: int) {
    /** Whole wall seconds; integer division by a positive constant rounds down, as Unix() does. */
    function Unix(): int {
      wall / NS
    }

    /** Elapsed time since `t`; with two monotonic readings Go subtracts those. */
    function Sub(t: Instant): int {
      mono - t.mono
    }

    predicate Before(t: Instant) {
      mono < t.mono
    }

    function Add(d: int): Instant {
      Instant(wall + d, mono + d)
    }
  }

  /** int(d.Seconds()): truncation toward zero. */
  function Seconds(d: int): int {
    if d >= 0 then d / NS else -((-d) / NS)
  }

  function CeilSeconds(d: int): int {
    var s := Seconds(d);
    if d > s * NS then s + 1 else s
  }

  /** CeilSeconds is the least whole number of seconds that covers `d`, for either sign. */
  lemma CeilSecondsIsLeast(d: int, c: int)
    ensures c * NS >= d <==> c >= CeilSeconds(d)
  {
  }

  /**
   The two roundings a recovery takes cancel: if two durations together cover
   `n` whole seconds less `x`, the floor of one plus the ceiling of the other
   covers them too, less the ceiling of `x`.
   */
  lemma FloorPlusCeilCovers(a: int, b: int, n: int, x: int)
    requires a >= 0
    requires a + b + x >= n * NS
    ensures Seconds(a) + CeilSeconds(b) + CeilSeconds(x) >= n
  {
  }
}
