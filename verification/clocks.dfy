/** The stateless jittered clock of bin/simexp/sim_clocktree.hpp. Every operation is on 64-bit words, so
    sums and products are reduced modulo 2^64 wherever the source's are; the lemmas say when that loses
    nothing. The pseudo-random word of a pulse (`splitmix64(n ^ seed)`) is an arbitrary function. */
module Clocks {
  import opened Arithmetic

  type Noise = (u64, u64) -> u64

  datatype PulseSchedule = PulseSchedule(period: u64, jitter: u64, seed: u64)

  function Wrap(x: int): u64 {
    x % U64_LIMIT
  }

  /** The i64 with the bits of `x`. */
  function Signed(x: u64): int {
    if x < 0x8000_0000_0000_0000 then x else x - U64_LIMIT
  }

  /** The high word of a 128-bit product: the native form of umul128h. */
  function HighWord(a: u64, b: u64): u64 {
    HighWordFits(a, b);
    a * b / U64_LIMIT
  }

  lemma {:induction false} HighWordFits(a: nat, b: nat)
    requires a < U64_LIMIT && b < U64_LIMIT
    ensures 0 <= a * b / U64_LIMIT < U64_LIMIT && (b > 0 ==> a * b / U64_LIMIT < b)
  {
    if b == 0 {
      assert a * b == 0;
    } else {
      MulMonotone(a, U64_LIMIT - 1, b);
      assert a * b >= 0 by {
        MulMonotone(0, a, b);
      }
      DivBelow(a * b, U64_LIMIT, b);
    }
  }

  /** The portable form of umul128h: four 32-bit products, added up in 64 bits. */
  function HighWordPortable(a: u64, b: u64): u64 {
    HighWordOfParts(
      Wrap((a % U32_LIMIT) * (b % U32_LIMIT)),
      Wrap((a / U32_LIMIT) * (b % U32_LIMIT)),
      Wrap((a % U32_LIMIT) * (b / U32_LIMIT)),
      Wrap((a / U32_LIMIT) * (b / U32_LIMIT)))
  }

  function HighWordOfParts(loLo: u64, hiLo: u64, loHi: u64, hiHi: u64): u64 {
    var cross := Wrap(loLo / U32_LIMIT + hiLo % U32_LIMIT + loHi);
    Wrap(hiLo / U32_LIMIT + cross / U32_LIMIT + hiHi)
  }

  /** The portable form never overflows, and computes the same word as the native one. */
  lemma {:induction false} PortableHighWord(a: u64, b: u64)
    ensures HighWordPortable(a, b) == HighWord(a, b)
  {
    var loLo, hiLo := (a % U32_LIMIT) * (b % U32_LIMIT), (a / U32_LIMIT) * (b % U32_LIMIT);
    var loHi, hiHi := (a % U32_LIMIT) * (b / U32_LIMIT), (a / U32_LIMIT) * (b / U32_LIMIT);
    PartialProducts(a, b);
    WrapSmall(loLo);
    WrapSmall(hiLo);
    WrapSmall(loHi);
    WrapSmall(hiHi);
    assert HighWordPortable(a, b) == HighWordOfParts(loLo, hiLo, loHi, hiHi);
    CarrySum(loLo, hiLo, loHi, hiHi, a * b);
    AddUp(loLo, hiLo, loHi, hiHi);
  }

  lemma {:induction false} WrapSmall(x: nat)
    requires x < U64_LIMIT
    ensures Wrap(x) == x
  {
  }

  lemma {:induction false} PartialProducts(a: u64, b: u64)
    ensures var m := U32_LIMIT;
      var loLo, hiLo, loHi, hiHi := (a % m) * (b % m), (a / m) * (b % m), (a % m) * (b / m), (a / m) * (b / m);
      && 0 <= loLo <= (m - 1) * (m - 1) && 0 <= hiLo <= (m - 1) * (m - 1)
      && 0 <= loHi <= (m - 1) * (m - 1) && 0 <= hiHi <= (m - 1) * (m - 1)
      && a * b == m * (m * hiHi + hiLo + loHi) + loLo
  {
    var m := U32_LIMIT;
    var ah, al, bh, bl := a / m, a % m, b / m, b % m;
    ProductBelow(al, bl, m);
    ProductBelow(ah, bl, m);
    ProductBelow(al, bh, m);
    ProductBelow(ah, bh, m);
    Split(a, m);
    Split(b, m);
    Expand(ah, al, bh, bl, m);
  }

  /** None of the additions of the portable form wraps. */
  lemma {:induction false} AddUp(loLo: nat, hiLo: nat, loHi: nat, hiHi: nat)
    requires loLo < U64_LIMIT && hiLo < U64_LIMIT && loHi < U64_LIMIT && hiHi < U64_LIMIT
    requires loLo / U32_LIMIT + hiLo % U32_LIMIT + loHi < U64_LIMIT
    requires hiLo / U32_LIMIT + (loLo / U32_LIMIT + hiLo % U32_LIMIT + loHi) / U32_LIMIT + hiHi < U64_LIMIT
    ensures HighWordOfParts(loLo, hiLo, loHi, hiHi)
      == hiLo / U32_LIMIT + (loLo / U32_LIMIT + hiLo % U32_LIMIT + loHi) / U32_LIMIT + hiHi
  {
  }

  /** Adding up the four partial products, with the carries. */
  lemma {:induction false} CarrySum(loLo: nat, hiLo: nat, loHi: nat, hiHi: nat, product: nat)
    requires loLo <= (U32_LIMIT - 1) * (U32_LIMIT - 1) && hiLo <= (U32_LIMIT - 1) * (U32_LIMIT - 1)
    requires loHi <= (U32_LIMIT - 1) * (U32_LIMIT - 1) && hiHi <= (U32_LIMIT - 1) * (U32_LIMIT - 1)
    requires product == U32_LIMIT * (U32_LIMIT * hiHi + hiLo + loHi) + loLo
    ensures var cross := loLo / U32_LIMIT + hiLo % U32_LIMIT + loHi;
      && cross < U64_LIMIT
      && hiLo / U32_LIMIT + cross / U32_LIMIT + hiHi == product / U64_LIMIT < U64_LIMIT
  {
    var m := U32_LIMIT;
    var cross := loLo / m + hiLo % m + loHi;
    var upper := hiLo / m + cross / m + hiHi;
    assert product == U64_LIMIT * upper + (m * (cross % m) + loLo % m);
    Quotient(product, U64_LIMIT, upper, m * (cross % m) + loLo % m);
  }

  /** index_of */
  function IndexOf(s: PulseSchedule, tick: u64): u64
    requires s.period > 0
  {
    QuotientAtMost(Wrap(tick + s.period / 2), s.period);
    Wrap(tick + s.period / 2) / s.period
  }

  /** uniform_jitter */
  function UniformJitter(s: PulseSchedule, noise: Noise, n: u64): int {
    var span := Wrap(2 * s.jitter + 1);
    var j := HighWord(noise(n, s.seed), span);
    Signed(Wrap(j - s.jitter))
  }

  /** edge_time */
  function EdgeTime(s: PulseSchedule, noise: Noise, n: u64): u64 {
    Wrap(Wrap(n * s.period) + UniformJitter(s, noise, n))
  }

  /** next_clock_tick */
  function NextClockTick(s: PulseSchedule, noise: Noise, tick: u64, delayCycles: nat): u64
    requires s.period > 0 && delayCycles < 256
  {
    EdgeTime(s, noise, Wrap(IndexOf(s, tick) + delayCycles))
  }

  /** The documented restriction on jitter. */
  predicate Steady(s: PulseSchedule) {
    s.period > 0 && 2 * s.jitter < s.period
  }

  /** Pulse `n` and the half period on each side of it are representable. */
  predicate Representable(s: PulseSchedule, n: nat) {
    (n + 1) * s.period < U64_LIMIT
  }

  /** Lemire's trick with 64-bit wrap-around yields an integer of [-jitter, +jitter]. */
  lemma {:induction false} JitterBound(s: PulseSchedule, noise: Noise, n: u64)
    requires s.jitter < 0x8000_0000_0000_0000
    ensures -(s.jitter as int) <= UniformJitter(s, noise, n) <= s.jitter
    ensures UniformJitter(s, noise, n) == HighWord(noise(n, s.seed), 2 * s.jitter + 1) - s.jitter
  {
    var span := 2 * s.jitter + 1;
    WrapSmall(span);
    HighWordFits(noise(n, s.seed), span);
    SignedDifference(HighWord(noise(n, s.seed), span), s.jitter);
  }

  lemma {:induction false} SignedDifference(j: u64, jitter: u64)
    requires j <= 2 * jitter && jitter < 0x8000_0000_0000_0000
    ensures Signed(Wrap(j - jitter)) == j - jitter
  {
    if j >= jitter {
      WrapSmall(j - jitter);
    } else {
      assert Wrap(j - jitter) == j - jitter + U64_LIMIT;
    }
  }

  /** Edge `n` is `n` periods, off by the jitter of pulse `n`: the jitter does not accumulate. */
  lemma {:induction false} EdgeIsNearPulse(s: PulseSchedule, noise: Noise, n: u64)
    requires Steady(s) && n >= 1 && Representable(s, n)
    ensures EdgeTime(s, noise, n) == n * s.period + UniformJitter(s, noise, n)
    ensures n * s.period - s.jitter <= EdgeTime(s, noise, n) <= n * s.period + s.jitter
  {
    JitterBound(s, noise, n);
    MulMonotone(1, n, s.period);
    assert (n + 1) * s.period == n * s.period + s.period;
    WrapSmall(n * s.period);
    WrapSmall(n * s.period + UniformJitter(s, noise, n));
  }

  lemma {:induction false} IndexOfOffset(s: PulseSchedule, tick: u64, n: nat, offset: nat)
    requires offset < s.period && tick + s.period / 2 == n * s.period + offset < U64_LIMIT
    ensures IndexOf(s, tick) == n
  {
    WrapSmall(tick + s.period / 2);
    Quotient(tick + s.period / 2, s.period, n, offset);
  }

  /** Any tick less than a half period, less the jitter, after edge `n` still belongs to pulse `n`. */
  lemma {:induction false} IndexAfterEdge(s: PulseSchedule, noise: Noise, n: u64, after: nat)
    requires Steady(s) && n >= 1 && Representable(s, n)
    requires s.period / 2 + s.jitter + after < s.period
    ensures EdgeTime(s, noise, n) + after < U64_LIMIT
    ensures IndexOf(s, EdgeTime(s, noise, n) + after) == n
  {
    hide EdgeTime, IndexOf, UniformJitter;
    EdgeIsNearPulse(s, noise, n);
    var edge, start := EdgeTime(s, noise, n), n * s.period;
    assert (n + 1) * s.period == start + s.period;
    IndexOfOffset(s, edge + after, n, edge - start + after + s.period / 2);
  }

  /** The pulse of an edge can be recovered from its tick. */
  lemma {:induction false} IndexOfEdge(s: PulseSchedule, noise: Noise, n: u64)
    requires Steady(s) && n >= 1 && Representable(s, n)
    ensures IndexOf(s, EdgeTime(s, noise, n)) == n
  {
    IndexAfterEdge(s, noise, n, 0);
  }

  /** Consecutive edges are one period apart, give or take twice the jitter; so edges increase. */
  lemma {:induction false} EdgeSpacing(s: PulseSchedule, noise: Noise, n: u64)
    requires Steady(s) && n >= 1 && Representable(s, n + 1)
    ensures EdgeTime(s, noise, n) + s.period - 2 * s.jitter <= EdgeTime(s, noise, n + 1)
    ensures EdgeTime(s, noise, n + 1) <= EdgeTime(s, noise, n) + s.period + 2 * s.jitter
    ensures EdgeTime(s, noise, n) < EdgeTime(s, noise, n + 1)
  {
    assert (n + 2) * s.period == (n + 1) * s.period + s.period;
    assert (n + 1) * s.period == n * s.period + s.period;
    MulMonotone(1, s.period, n + 2);
    EdgeIsNearPulse(s, noise, n);
    EdgeIsNearPulse(s, noise, n + 1);
  }

  /** `k` edges later is at most `k` periods and twice the jitter later, and at least one tick later. */
  lemma {:induction false} EdgeDistance(s: PulseSchedule, noise: Noise, n: u64, k: nat)
    requires Steady(s) && n >= 1 && k >= 1 && Representable(s, n + k)
    ensures n + k < U64_LIMIT
    ensures EdgeTime(s, noise, n) < EdgeTime(s, noise, n + k) <= EdgeTime(s, noise, n) + k * s.period + 2 * s.jitter
  {
    MulMonotone(1, s.period, n + k + 1);
    assert (n + k + 1) * s.period == (n + k) * s.period + s.period;
    assert (n + k) * s.period == n * s.period + k * s.period;
    assert (n + 1) * s.period == n * s.period + s.period;
    MulMonotone(1, k, s.period);
    EdgeIsNearPulse(s, noise, n);
    EdgeIsNearPulse(s, noise, n + k);
  }

  lemma {:induction false} EdgesIncrease(s: PulseSchedule, noise: Noise, n: u64, m: u64)
    requires Steady(s) && 1 <= n < m && Representable(s, m)
    ensures EdgeTime(s, noise, n) < EdgeTime(s, noise, m)
  {
    EdgeDistance(s, noise, n, m - n);
  }

  lemma {:induction false} IndexFits(s: PulseSchedule, n: nat, k: nat)
    requires s.period > 0 && k <= n && Representable(s, n)
    ensures n < U64_LIMIT && Representable(s, k)
  {
    MulMonotone(1, s.period, n + 1);
    MulMonotone(k + 1, n + 1, s.period);
  }

  lemma {:induction false} NextTickOfPulse(s: PulseSchedule, noise: Noise, tick: u64, d: nat, i: u64)
    requires s.period > 0 && d < 256 && IndexOf(s, tick) == i && i + d < U64_LIMIT
    ensures NextClockTick(s, noise, tick, d) == EdgeTime(s, noise, i + d)
  {
    WrapSmall(i + d);
  }

  /** Asking for the next tick on an edge names the edge `d` pulses later. */
  lemma {:induction false} NextTickOnEdge(s: PulseSchedule, noise: Noise, n: u64, d: nat)
    requires Steady(s) && n >= 1 && d < 256 && Representable(s, n + d)
    ensures n + d < U64_LIMIT
    ensures NextClockTick(s, noise, EdgeTime(s, noise, n), d) == EdgeTime(s, noise, n + d)
  {
    IndexFits(s, n + d, n);
    IndexOfEdge(s, noise, n);
    NextTickOfPulse(s, noise, EdgeTime(s, noise, n), d, n);
  }

  /** `m` single steps of the clock. */
  function Steps(s: PulseSchedule, noise: Noise, tick: u64, m: nat): u64
    requires s.period > 0
  {
    if m == 0 then tick else NextClockTick(s, noise, Steps(s, noise, tick, m - 1), 1)
  }

  /** From an edge, `m` single steps reach the same tick as one jump of `m` cycles. */
  lemma {:induction false} StepsAreOneJump(s: PulseSchedule, noise: Noise, n: u64, m: nat)
    requires Steady(s) && n >= 1 && m < 256 && Representable(s, n + m)
    ensures n + m < U64_LIMIT
    ensures Steps(s, noise, EdgeTime(s, noise, n), m) == EdgeTime(s, noise, n + m)
      == NextClockTick(s, noise, EdgeTime(s, noise, n), m)
  {
    NextTickOnEdge(s, noise, n, m);
    if m == 0 {
    } else {
      MulMonotone(n + m, n + m + 1, s.period);
      StepsAreOneJump(s, noise, n, m - 1);
      NextTickOnEdge(s, noise, n + m - 1, 1);
    }
  }

  lemma {:induction false} TickBeforeNextPulse(s: PulseSchedule, tick: u64)
    requires s.period > 0 && tick + s.period / 2 < U64_LIMIT
    ensures tick + s.period / 2 < (IndexOf(s, tick) + 1) * s.period
  {
    WrapSmall(tick + s.period / 2);
    PulseAfter(tick + s.period / 2, s.period, IndexOf(s, tick) + 1);
  }

  /** From any tick at all, the next clock tick is strictly later. */
  lemma {:induction false} NextTickIsLater(s: PulseSchedule, noise: Noise, tick: u64, d: nat)
    requires Steady(s) && 1 <= d < 256 && tick + s.period / 2 < U64_LIMIT
    requires Representable(s, IndexOf(s, tick) + d)
    ensures NextClockTick(s, noise, tick, d) > tick
  {
    var i := IndexOf(s, tick);
    IndexFits(s, i + d, i);
    NextTickOfPulse(s, noise, tick, d, i);
    TickBeforeNextPulse(s, tick);
    MulMonotone(i + 1, i + d, s.period);
    EdgeIsNearPulse(s, noise, i + d);
  }

  lemma {:induction false} PulseAfter(x: nat, period: nat, n: nat)
    requires period > 0 && n >= x / period + 1
    ensures x < n * period
  {
    Split(x, period);
    MulMonotone(x / period + 1, n, period);
    assert (x / period + 1) * period == (x / period) * period + period;
  }

  /* The restriction on jitter is needed. */

  /** The noise that pushes an edge furthest back: the whole jitter, or, when the subtraction of the jitter
      leaves the signed range, what it wraps to. */
  function LateNoise(jitter: u64): Noise {
    if jitter < 0x8000_0000_0000_0000 then (n: u64, seed: u64) => U64_LIMIT - 1 else (n: u64, seed: u64) => 0
  }

  lemma {:induction false} AllOnes(span: nat)
    requires 0 < span < U64_LIMIT
    ensures HighWord(U64_LIMIT - 1, span) == span - 1
  {
    Quotient((U64_LIMIT - 1) * span, U64_LIMIT, span - 1, U64_LIMIT - span);
  }

  lemma {:induction false} LateJitter(s: PulseSchedule)
    ensures UniformJitter(s, LateNoise(s.jitter), 1)
      == if s.jitter < 0x8000_0000_0000_0000 then s.jitter
         else if s.jitter == 0x8000_0000_0000_0000 then -0x8000_0000_0000_0000
         else U64_LIMIT - s.jitter
  {
    var noise := LateNoise(s.jitter);
    if s.jitter < 0x8000_0000_0000_0000 {
      hide HighWord, UniformJitter;
      JitterBound(s, noise, 1);
      AllOnes(2 * s.jitter + 1);
    } else {
      var span := Wrap(2 * s.jitter + 1);
      NoBits(span);
      assert Wrap(0 - s.jitter) == U64_LIMIT - s.jitter;
    }
  }

  lemma {:induction false} NoBits(span: u64)
    ensures HighWord(0, span) == 0
  {
  }

  lemma {:induction false} LateEdge(s: PulseSchedule)
    requires 2 * s.jitter >= s.period > 0 && s.period + s.jitter + s.period / 2 < U64_LIMIT
    ensures EdgeTime(s, LateNoise(s.jitter), 1) ==
      s.period + if s.jitter < 0x8000_0000_0000_0000 then s.jitter else U64_LIMIT - s.jitter
  {
    hide UniformJitter, LateNoise;
    LateJitter(s);
    WrapSmall(1 * s.period);
  }

  /** With a jitter of half the period or more, some noise moves the edge of a pulse out of the pulse. */
  lemma {:induction false} WideJitterLosesPulse(s: PulseSchedule)
    requires 2 * s.jitter >= s.period > 0 && s.period + s.jitter + s.period / 2 < U64_LIMIT
    ensures Representable(s, 1)
    ensures IndexOf(s, EdgeTime(s, LateNoise(s.jitter), 1)) != 1
  {
    LateEdge(s);
    var tick := EdgeTime(s, LateNoise(s.jitter), 1) + s.period / 2;
    WrapSmall(tick);
    assert tick >= 2 * s.period;
    if tick / s.period == 1 {
      Split(tick, s.period);
    }
  }

  /** Every edge can be traced back to its pulse, whatever the noise. */
  ghost predicate Traceable(s: PulseSchedule)
    requires s.period > 0
  {
    forall noise: Noise, n: u64 :: n >= 1 && Representable(s, n) ==> IndexOf(s, EdgeTime(s, noise, n)) == n
  }

  /** So the documented restriction on jitter is the exact condition. */
  lemma {:induction false} JitterRestrictionIsExact(s: PulseSchedule)
    requires s.period > 0 && s.period + s.jitter + s.period / 2 < U64_LIMIT
    ensures Traceable(s) <==> 2 * s.jitter < s.period
  {
    if 2 * s.jitter < s.period {
      forall noise: Noise, n: u64 | n >= 1 && Representable(s, n)
        ensures IndexOf(s, EdgeTime(s, noise, n)) == n
      {
        IndexOfEdge(s, noise, n);
      }
    } else {
      WideJitterLosesPulse(s);
    }
  }
}
