/**
 The elapsed-time arithmetic of `loop()` in src/main.cpp: three `micros()`
 readings `t0`, `t1`, `t2` (lines 103, 105 and 124) held in `unsigned long`,
 which is 32 bits wide on the target board, and the two differences
 `t1 - t0` and `t2 - t1` printed at lines 138-140. Unsigned subtraction wraps
 modulo 2^32; the readings are values of `ULong`, the 32-bit unsigned range,
 with the wrap-around written out, and the microsecond counter itself is a
 parameter.
 */
module Timing {

  /** 2^32, the period of the 32-bit microsecond counter. */
  const Period: int := 0x1_0000_0000

  /** `unsigned long` on the board: the integers in `[0, 2^32)`. */
  type ULong = x: int | 0 <= x < Period

  /** What `micros()` returns `t` microseconds after start-up: the counter wraps to 0 every `Period`. */
  function Reading(t: nat): (m: ULong)
    ensures t < Period ==> m == t
  {
    t % Period
  }

  /**
   `after - before` on `unsigned long`: the result always lies in
   `[0, 2^32)`, it is the mathematical difference reduced modulo 2^32, and
   adding it back to `before` with the same wrap-around gives `after`.
   */
  function Elapsed(before: ULong, after: ULong): (d: ULong)
    ensures d == (after - before) % Period
    ensures before <= after ==> d == after - before
    ensures (before + d) % Period == after
  {
    if before <= after then after - before else after + Period - before
  }

  /** The two durations the sketch prints for one request. */
  datatype Timings = Timings(printing: ULong, inference: ULong)

  /** `t1 - t0` and `t2 - t1` from the three readings of one request. */
  function Measure(t0: ULong, t1: ULong, t2: ULong): (r: Timings)
    ensures r.printing == (t1 - t0) % Period
    ensures r.inference == (t2 - t1) % Period
  {
    Timings(Elapsed(t0, t1), Elapsed(t1, t2))
  }

  /** The difference of two readings is the true elapsed time reduced modulo 2^32. */
  lemma {:induction false} ElapsedModulo(s: nat, t: nat)
    requires s <= t
    ensures Elapsed(Reading(s), Reading(t)) == (t - s) % Period
  {
    var qs, qt := s / Period, t / Period;
    assert s == qs * Period + Reading(s);
    assert t == qt * Period + Reading(t);
    var d := Reading(t) - Reading(s);
    assert t - s == d + (qt - qs) * Period;
    ModuloShift(d, qt - qs);
  }

  /** Adding a multiple of the period does not change a value modulo the period. */
  lemma {:induction false} ModuloShift(x: int, k: int)
    ensures (x + k * Period) % Period == x % Period
  {
    var r := x % Period;
    var q := x / Period;
    assert x == q * Period + r;
    assert x + k * Period == (q + k) * Period + r;
  }

  /**
   The difference is exact whenever less than 2^32 microseconds passed
   between the readings, even if the counter wrapped in between.
   */
  lemma {:induction false} ElapsedExact(s: nat, t: nat)
    requires s <= t < s + Period
    ensures Elapsed(Reading(s), Reading(t)) == t - s
  {
    ElapsedModulo(s, t);
  }

  /** Both printed durations are exact when the whole request takes less than 2^32 microseconds. */
  lemma {:induction false} MeasureExact(s0: nat, s1: nat, s2: nat)
    requires s0 <= s1 <= s2 < s0 + Period
    ensures Measure(Reading(s0), Reading(s1), Reading(s2)) == Timings(s1 - s0, s2 - s1)
  {
    ElapsedExact(s0, s1);
    ElapsedExact(s1, s2);
  }

  /** A reading taken 32 microseconds after one just before the wrap still gives 32. */
  lemma {:induction false} ElapsedAcrossWrap()
    ensures Elapsed(Reading(Period - 16), Reading(Period + 16)) == 32
  {
    ElapsedExact(Period - 16, Period + 16);
  }
}
