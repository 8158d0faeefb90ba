/**
 * The time helpers of the IMU programs: a `timespec` (seconds and
 * nanoseconds), its conversion to microseconds, the drift-free advance of an
 * absolute deadline (`sleep_until`) and the split of a relative delay into a
 * `timespec` (`sleep_lapse`). The sleeps themselves are calls into the kernel
 * and are not modelled; only the arithmetic around them is.
 */
module TimeUtils {
  /** A C `int`. */
  type Int32 = x: int | -0x8000_0000 <= x < 0x8000_0000

  const NANOS_PER_SECOND: int := 1_000_000_000
  const MICROS_PER_SECOND: int := 1_000_000
  const NANOS_PER_MICRO: int := 1000

  /** A `struct timespec` value. */
  datatype Time = Time(sec: int, nsec: int)

  /** The instant a `timespec` denotes, in nanoseconds. */
  function Nanos(t: Time): int
  {
    t.sec * NANOS_PER_SECOND + t.nsec
  }

  /** The `timespec` invariant the kernel expects: nanoseconds within one second. */
  predicate Normalised(t: Time)
  {
    0 <= t.nsec < NANOS_PER_SECOND
  }

  /** C's `/`, which truncates toward zero. */
  function CDiv(a: int, b: int): (q: int)
    requires b > 0
    ensures a >= 0 ==> q == a / b
    ensures a < 0 ==> q == -((-a) / b)
  {
    if a >= 0 then a / b else -((-a) / b)
  }

  /** C's `%`: the remainder of the truncating division, with the sign of `a`. */
  function CRem(a: int, b: int): (r: int)
    requires b > 0
    ensures a == CDiv(a, b) * b + r
    ensures a >= 0 ==> 0 <= r < b
    ensures a < 0 ==> -b < r <= 0
  {
    a - CDiv(a, b) * b
  }

  /** `toMicroseconds`: whole seconds in microseconds plus the nanoseconds truncated to microseconds. */
  function ToMicroseconds(t: Time): (us: int)
    ensures Normalised(t) ==> t.sec * MICROS_PER_SECOND <= us < t.sec * MICROS_PER_SECOND + MICROS_PER_SECOND
  {
    t.sec * MICROS_PER_SECOND + CDiv(t.nsec, NANOS_PER_MICRO)
  }

  /** For a normalised `timespec` the conversion is the instant in whole microseconds, rounded down. */
  lemma ToMicrosecondsIsFloor(t: Time)
    requires Normalised(t)
    ensures ToMicroseconds(t) == Nanos(t) / NANOS_PER_MICRO
  {
    var q := t.nsec / NANOS_PER_MICRO;
    var r := t.nsec % NANOS_PER_MICRO;
    assert Nanos(t) == (t.sec * MICROS_PER_SECOND + q) * NANOS_PER_MICRO + r;
    Div1000Unique(Nanos(t), t.sec * MICROS_PER_SECOND + q, r);
  }

  /** Integer fact: division by 1000 is determined by a quotient and a remainder in range. */
  lemma Div1000Unique(n: int, q: int, r: int)
    requires 0 <= r < 1000 && n == q * 1000 + r
    ensures n / 1000 == q
  {
  }

  /**
   * The deadline update of `sleep_until`: `delay` microseconds are added to
   * the nanoseconds, and one second is carried when they reach a full second.
   */
  function Advance(t: Time, delay: Int32): (u: Time)
    requires -0x8000_0000 <= delay * NANOS_PER_MICRO < 0x8000_0000
    ensures Nanos(u) == Nanos(t) + delay * NANOS_PER_MICRO
    ensures u.sec == t.sec || u.sec == t.sec + 1
  {
    var nsec := t.nsec + delay * NANOS_PER_MICRO;
    if nsec >= NANOS_PER_SECOND then Time(t.sec + 1, nsec - NANOS_PER_SECOND) else Time(t.sec, nsec)
  }

  /** With a normalised deadline and a delay under one second, one carry is enough: the result is normalised. */
  lemma AdvanceNormalised(t: Time, delay: Int32)
    requires Normalised(t) && 0 <= delay < MICROS_PER_SECOND
    ensures Normalised(Advance(t, delay))
    ensures ToMicroseconds(Advance(t, delay)) == ToMicroseconds(t) + delay
  {
    var u := Advance(t, delay);
    ToMicrosecondsIsFloor(t);
    ToMicrosecondsIsFloor(u);
    assert Nanos(u) == Nanos(t) + delay * NANOS_PER_MICRO;
    Div1000Shift(Nanos(t), delay);
  }

  /** Integer fact: adding `k` thousands adds `k` to the quotient by 1000. */
  lemma Div1000Shift(n: int, k: int)
    ensures (n + k * 1000) / 1000 == n / 1000 + k
  {
    Div1000Unique(n + k * 1000, n / 1000 + k, n % 1000);
  }

  /** The deadline after `k` calls of `sleep_until` with the same delay. */
  function AdvanceTimes(t: Time, delay: Int32, k: nat): Time
    requires -0x8000_0000 <= delay * NANOS_PER_MICRO < 0x8000_0000
  {
    if k == 0 then t else Advance(AdvanceTimes(t, delay, k - 1), delay)
  }

  /**
   * Drift-free pacing: after `k` calls with the same delay the deadline is
   * exactly `k * delay` microseconds after the start, however late each
   * call came, and it stays normalised.
   */
  lemma {:induction false} AdvanceTimesDriftFree(t: Time, delay: Int32, k: nat)
    requires Normalised(t) && 0 <= delay < MICROS_PER_SECOND
    ensures Normalised(AdvanceTimes(t, delay, k))
    ensures Nanos(AdvanceTimes(t, delay, k)) == Nanos(t) + k * delay * NANOS_PER_MICRO
    ensures ToMicroseconds(AdvanceTimes(t, delay, k)) == ToMicroseconds(t) + k * delay
  {
    if k > 0 {
      AdvanceTimesDriftFree(t, delay, k - 1);
      AdvanceNormalised(AdvanceTimes(t, delay, k - 1), delay);
      assert k * delay == (k - 1) * delay + delay;
      assert k * delay * NANOS_PER_MICRO == (k - 1) * delay * NANOS_PER_MICRO + delay * NANOS_PER_MICRO;
    }
  }

  /**
   * The `timespec` built by `sleep_lapse`: whole seconds and the remaining
   * microseconds in nanoseconds, both by C's truncating division.
   */
  function Lapse(delay: Int32): (t: Time)
    ensures t.nsec == CRem(delay, MICROS_PER_SECOND) * NANOS_PER_MICRO
  {
    Time(CDiv(delay, MICROS_PER_SECOND), CRem(delay, MICROS_PER_SECOND) * NANOS_PER_MICRO)
  }

  /**
   * Converting the lapse back gives the delay, for every delay. The lapse is
   * a valid `timespec` when the delay is not negative; a negative delay gives
   * negative nanoseconds unless it is a whole number of seconds.
   */
  lemma LapseRoundTrip(delay: Int32)
    ensures ToMicroseconds(Lapse(delay)) == delay
    ensures Normalised(Lapse(delay)) <==> delay >= 0 || delay % MICROS_PER_SECOND == 0
  {
    var r := CRem(delay, MICROS_PER_SECOND);
    Div1000Exact(r);
    if delay < 0 {
      assert delay == CDiv(delay, MICROS_PER_SECOND) * MICROS_PER_SECOND + r;
      assert r == 0 <==> delay % MICROS_PER_SECOND == 0;
    }
  }

  /** Integer fact: a multiple of 1000 divides back exactly, with C's division too. */
  lemma Div1000Exact(r: int)
    ensures CDiv(r * 1000, 1000) == r
  {
    if r >= 0 {
      Div1000Unique(r * 1000, r, 0);
    } else {
      Div1000Unique((-r) * 1000, -r, 0);
    }
  }

  /** A caller's `struct timespec`, which `sleep_until` updates in place. */
  class Timespec {
    var tvSec: int
    var tvNsec: int

    function Value(): Time
      reads this
    {
      Time(tvSec, tvNsec)
    }

    constructor (t: Time)
      ensures Value() == t
    {
      tvSec, tvNsec := t.sec, t.nsec;
    }
  }

  /** `sleep_until`: advance the deadline in place (the sleep until it is not modelled). */
  method SleepUntil(ts: Timespec, delay: Int32)
    requires -0x8000_0000 <= delay * NANOS_PER_MICRO < 0x8000_0000
    modifies ts
    ensures ts.Value() == Advance(old(ts.Value()), delay)
  {
    var oneSecond := NANOS_PER_SECOND;
    ts.tvNsec := ts.tvNsec + delay * NANOS_PER_MICRO;
    if ts.tvNsec >= oneSecond {
      ts.tvNsec := ts.tvNsec - oneSecond;
      ts.tvSec := ts.tvSec + 1;
    }
  }
}
