/** PWM driver: one control word with a 15-bit group of bits per channel
    (prescaler, enable, active state, clock gate), and one period word per
    channel holding the period and duty counts. */
module Pwm {
  import Bits
  import Errno
  import RegisterWindow

  /** Physical address of the PWM registers. */
  const IO_BASE: bv32 := 0x01c20e00
  /** `sizeof(struct sunxi_pwm_reg)`: ctrl and ch_period[2]. */
  const REG_SIZE: bv32 := 12

  /** `SUNXI_PWM_POLARITY_NORMAL`; `_INVERSED` is 1. */
  const POLARITY_NORMAL: bv32 := 0

  /** C `__u64`: the type of `period_ns`, `duty_ns` and `div`. */
  const U64: int := 0x1_0000_0000_0000_0000
  type Word64 = x: int | 0 <= x < U64
  /** C `unsigned int`, as the target of an assignment from `__u64`. */
  const U32: int := 0x1_0000_0000
  type Word32 = x: int | 0 <= x < U32

  /** The number of prescaler indices the solver tries: 0 to 14. */
  const TRIED: nat := 15

  /** `prescaler_table`: the clock divisor of each prescaler index; 0 marks
      an index the chip reserves. */
  const TABLE: seq<int> := [120, 180, 240, 360, 480, 0, 0, 0, 12000, 24000, 36000, 48000, 72000, 0, 0, 0]

  /** The PWM input clock, 24 MHz. */
  const CLOCK: int := 24000000
  /** Nanoseconds per second. */
  const NS: int := 1000000000

  /** The counter value at index `i`, computed as the solver does in 64-bit
      unsigned arithmetic: `div = 24000000; div /= table[i]; div *= period_ns;
      div /= 1000000000;`. The product wraps modulo 2^64. */
  function Counter(period: Word64, i: nat): (c: Word64)
    requires i < |TABLE| && TABLE[i] != 0
  {
    (CLOCK / TABLE[i]) * period % U64 / NS
  }

  /** The clock divided by any divisor of the table lies between the
      quotients for the largest and the smallest divisor. */
  lemma RateBounds(i: nat)
    requires i < |TABLE| && TABLE[i] != 0
    ensures 333 <= CLOCK / TABLE[i] <= 200000
  {
  }

  /** The solver's acceptance test `div - 1 <= 0xFFFF`, in 64-bit unsigned
      arithmetic. */
  predicate Fits(c: Word64) {
    (c - 1) % U64 <= 0xFFFF
  }

  /** The test accepts exactly the counters 1 to 65536: a counter of 0 wraps
      to 2^64 - 1 and is rejected. */
  lemma FitsRange(c: Word64)
    ensures Fits(c) <==> 1 <= c <= 0x1_0000
  {
    if c == 0 {
      assert (c - 1) % U64 == U64 - 1;
    }
  }

  /** The first index from `from` on whose divisor is not reserved and whose
      counter fits; `TRIED` when there is none, which is where the solver's
      loop variable ends. */
  function FirstFit(period: Word64, from: nat): (r: nat)
    requires from <= TRIED
    ensures from <= r <= TRIED
    ensures r < TRIED ==> TABLE[r] != 0 && Fits(Counter(period, r))
    ensures forall j :: from <= j < r && TABLE[j] != 0 ==> !Fits(Counter(period, j))
    decreases TRIED - from
  {
    if from == TRIED then TRIED
    else if TABLE[from] != 0 && Fits(Counter(period, from)) then from
    else FirstFit(period, from + 1)
  }

  /** The prescaler search of `sunxi_pwm_set_config`: try the indices in
      order, skip reserved ones, stop at the first counter that fits.
      `div` starts at 0 here; in C it is uninitialized, but index 0 is never
      reserved, so the loop always assigns it before it is read. */
  method Solve(period: Word64) returns (prescaler: nat, div: Word64)
    ensures prescaler == FirstFit(period, 0)
    ensures Fits(div) <==> prescaler < TRIED
    ensures prescaler < TRIED ==> div == Counter(period, prescaler)
  {
    prescaler := 0;
    div := 0;
    while prescaler < TRIED
      invariant prescaler <= TRIED
      invariant FirstFit(period, prescaler) == FirstFit(period, 0)
      invariant !Fits(div)
      decreases TRIED - prescaler
    {
      if TABLE[prescaler] == 0 {
        prescaler := prescaler + 1;
        continue;
      }
      div := CLOCK;
      RateBounds(prescaler);
      div := div / TABLE[prescaler];
      div := div * period % U64;
      div := div / NS;
      if Fits(div) {
        break;
      }
      prescaler := prescaler + 1;
    }
  }

  /** The duty count: `div *= duty_ns; div /= period_ns; dty = div;`, with
      the product wrapping modulo 2^64 and the assignment to `unsigned int`
      keeping the low 32 bits. */
  function DutyCount(c: Word64, duty: Word64, period: Word64): Word32
    requires period != 0
  {
    c * duty % U64 / period % U32
  }

  /** `((prd - 1) << 16) + (dty & 0xFFFF)` in `unsigned int` arithmetic:
      the period count less one in the high half, the low 16 bits of the
      duty count in the low half. On unsigned values `x << 16` is
      `x * 65536` modulo 2^32 and `x & 0xFFFF` is `x % 65536`. */
  function PeriodWord(prd: Word32, dty: Word32): Word32 {
    ((prd - 1) % U32 * 0x1_0000 % U32 + dty % 0x1_0000) % U32
  }

  /** A period count from 1 to 65536 and the duty count's low half can be
      read back from the word. */
  lemma PeriodWordFields(prd: Word32, dty: Word32)
    requires 1 <= prd <= 0x1_0000
    ensures PeriodWord(prd, dty) / 0x1_0000 == prd - 1
    ensures PeriodWord(prd, dty) % 0x1_0000 == dty % 0x1_0000
  {
    PeriodWordNoWrap(prd, dty);
  }

  /** For such a count nothing wraps: the word is the plain sum. */
  lemma PeriodWordNoWrap(prd: Word32, dty: Word32)
    requires 1 <= prd <= 0x1_0000
    ensures PeriodWord(prd, dty) == (prd - 1) * 0x1_0000 + dty % 0x1_0000
  {
    assert (prd - 1) % U32 == prd - 1;
    assert (prd - 1) * 0x1_0000 <= 0xFFFF_0000;
  }

  /** Different period counts, or duty counts differing in the low 16 bits,
      give different words. */
  lemma PeriodWordInjective(prd: Word32, dty: Word32, prd': Word32, dty': Word32)
    requires 1 <= prd <= 0x1_0000 && 1 <= prd' <= 0x1_0000
    requires PeriodWord(prd, dty) == PeriodWord(prd', dty')
    ensures prd == prd' && dty % 0x1_0000 == dty' % 0x1_0000
  {
    PeriodWordFields(prd, dty);
    PeriodWordFields(prd', dty');
  }

  /** The outcome of `sunxi_pwm_set_config` for an initialized controller:
      rejected with -EINVAL, or the prescaler index, the period count `prd`
      and the duty count `dty` it encodes into the period word. */
  datatype Setting = Rejected | Accepted(prescaler: nat, prd: Word32, dty: Word32)

  /** A call is accepted exactly when some index fits. The chosen index is
      the first that fits, it is never reserved, and its period count fits
      the 16-bit field. */
  function Configure(period: Word64, duty: Word64): (s: Setting)
    ensures s.Accepted? <==> exists i :: 0 <= i < TRIED && TABLE[i] != 0 && Fits(Counter(period, i))
    ensures s.Accepted? ==> s.prescaler < TRIED && TABLE[s.prescaler] != 0
    ensures s.Accepted? ==> 1 <= s.prd <= 0x1_0000 && s.prd == Counter(period, s.prescaler)
    ensures s.Accepted? ==> s.prescaler == FirstFit(period, 0)
    ensures s.Accepted? ==> forall j :: 0 <= j < s.prescaler && TABLE[j] != 0 ==> !Fits(Counter(period, j))
  {
    var i := FirstFit(period, 0);
    if i == TRIED then Rejected
    else
      var c := Counter(period, i);
      FitsRange(c);
      Accepted(i, c, DutyCount(c, duty, period))
  }

  /** The computing half of `sunxi_pwm_set_config`: solve for the prescaler,
      reject a counter that does not fit, then derive the period and duty
      counts. `period_ns` is not 0 on the division, because a period of 0
      gives a counter of 0, which is rejected. */
  method Compute(period: Word64, duty: Word64) returns (s: Setting)
    ensures s == Configure(period, duty)
  {
    var prescaler, div := Solve(period);
    if !Fits(div) {
      return Rejected;
    }
    FitsRange(div);
    var prd: Word32 := div;
    div := div * duty % U64;
    div := div / period;
    var dty: Word32 := div % U32;
    s := Accepted(prescaler, prd, dty);
  }

  /** The longest period for which no product `div * period_ns` of the
      solver wraps: 200000 is the largest quotient, and 200000 times this
      value is still below 2^64. */
  const LONGEST_EXACT: int := 92233720368547

  lemma MulMono(a: int, b: int, k: int)
    requires 0 <= a <= b && 0 <= k
    ensures k * a <= k * b
  {
  }

  lemma MulMonoLeft(k: int, l: int, a: int)
    requires 0 <= l <= k && 0 <= a
    ensures l * a <= k * a
  {
  }

  lemma DivMono(a: int, b: int)
    requires 0 <= a <= b
    ensures a / NS <= b / NS
  {
  }

  /** Without wrap-around the counter is the exact floor of the product. */
  lemma CounterExact(period: Word64, i: nat)
    requires period <= LONGEST_EXACT && i < |TABLE| && TABLE[i] != 0
    ensures Counter(period, i) == (CLOCK / TABLE[i]) * period / NS
  {
    RateBounds(i);
    MulMonoLeft(200000, CLOCK / TABLE[i], period);
  }

  /** A longer period never gives a smaller counter at the same index. */
  lemma CounterGrowsWithPeriod(p1: Word64, p2: Word64, i: nat)
    requires p1 <= p2 <= LONGEST_EXACT && i < |TABLE| && TABLE[i] != 0
    ensures Counter(p1, i) <= Counter(p2, i)
  {
    CounterExact(p1, i);
    CounterExact(p2, i);
    RateBounds(i);
    MulMono(p1, p2, CLOCK / TABLE[i]);
    DivMono((CLOCK / TABLE[i]) * p1, (CLOCK / TABLE[i]) * p2);
  }

  /** The table's divisors grow with the index, so the quotients shrink. */
  lemma RateShrinks(i: nat, j: nat)
    requires i <= j < |TABLE| && TABLE[i] != 0 && TABLE[j] != 0
    ensures CLOCK / TABLE[j] <= CLOCK / TABLE[i]
  {
  }

  /** A larger index never gives a larger counter for the same period. */
  lemma CounterShrinksWithIndex(period: Word64, i: nat, j: nat)
    requires period <= LONGEST_EXACT && i <= j < |TABLE| && TABLE[i] != 0 && TABLE[j] != 0
    ensures Counter(period, j) <= Counter(period, i)
  {
    CounterExact(period, i);
    CounterExact(period, j);
    RateShrinks(i, j);
    RateBounds(j);
    MulMonoLeft(CLOCK / TABLE[i], CLOCK / TABLE[j], period);
    DivMono((CLOCK / TABLE[j]) * period, (CLOCK / TABLE[i]) * period);
  }

  /** Of two accepted configurations, the longer period never has the
      smaller prescaler index, as long as no product wraps. */
  lemma LongerPeriodNoSmallerPrescaler(p1: Word64, d1: Word64, p2: Word64, d2: Word64)
    requires p1 <= p2 <= LONGEST_EXACT
    requires Configure(p1, d1).Accepted? && Configure(p2, d2).Accepted?
    ensures Configure(p1, d1).prescaler <= Configure(p2, d2).prescaler
  {
    var i1 := FirstFit(p1, 0);
    var i2 := FirstFit(p2, 0);
    if i2 < i1 {
      FitsRange(Counter(p1, i1));
      FitsRange(Counter(p1, i2));
      FitsRange(Counter(p2, i2));
      CounterGrowsWithPeriod(p1, p2, i2);
      CounterShrinksWithIndex(p1, i2, i1);
      assert false;
    }
  }

  /** With wrap-around the order breaks: one second selects index 4, while
      a period about 25.6 hours long wraps at index 0 to a counter of 1. */
  lemma WrapBreaksOrder()
    ensures Configure(1000000000, 0).Accepted? && Configure(1000000000, 0).prescaler == 4
    ensures Configure(92233720373548, 0).Accepted? && Configure(92233720373548, 0).prescaler == 0
  {
    assert Counter(1000000000, 0) == 200000;
    assert Counter(1000000000, 1) == 133333;
    assert Counter(1000000000, 2) == 100000;
    assert Counter(1000000000, 3) == 66666;
    assert Counter(1000000000, 4) == 50000;
    FitsRange(Counter(1000000000, 0));
    FitsRange(Counter(1000000000, 1));
    FitsRange(Counter(1000000000, 2));
    FitsRange(Counter(1000000000, 3));
    FitsRange(Counter(1000000000, 4));
    assert FirstFit(1000000000, 3) == 4;
    assert FirstFit(1000000000, 1) == 4;
    assert Counter(92233720373548, 0) == 1;
    FitsRange(Counter(92233720373548, 0));
  }

  /** 1 ms period and 0.5 ms duty: prescaler index 0, a period count of
      200 and a duty count of 100, so the word is 0x00C70064. */
  lemma HalfDutyAtOneKilohertz()
    ensures Configure(1000000, 500000) == Accepted(0, 200, 100)
    ensures PeriodWord(200, 100) == 0x00C70064
  {
    assert Counter(1000000, 0) == 200;
    FitsRange(200);
    assert DutyCount(200, 500000, 1000000) == 100;
  }

  /** For a period count that fits and a duty no longer than a period up to
      the wrap bound, neither the product nor the truncation to `unsigned
      int` loses anything: the duty count is the exact floor of
      `c * duty / period`, and never exceeds the period count. */
  lemma DutyExact(c: Word64, duty: Word64, period: Word64)
    requires 1 <= c <= 0x1_0000 && 1 <= period <= LONGEST_EXACT && duty <= period
    ensures DutyCount(c, duty, period) == c * duty / period <= c
  {
    DutyProductBound(c, duty, period);
    var p := c * duty;
    assert p % U64 == p;
    QuotientAtMost(p, period, c);
    assert p / period % U32 == p / period;
  }

  /** The product `c * duty` stays below both `c * period` and 2^64. */
  lemma DutyProductBound(c: int, duty: int, period: int)
    requires 1 <= c <= 0x1_0000 && 1 <= period <= LONGEST_EXACT && 0 <= duty <= period
    ensures c * duty <= c * period < U64
  {
    MulMono(duty, period, c);
    MulMonoLeft(0x1_0000, c, period);
    MulMono(period, LONGEST_EXACT, 0x1_0000);
  }

  /** A quotient is at most `k` when the dividend is at most `k` times the
      divisor. */
  lemma QuotientAtMost(p: int, d: int, k: int)
    requires 0 <= p <= k * d && 0 < d && 0 <= k
    ensures p / d <= k
  {
    var q := p / d;
    assert q * d + p % d == p;
    if q > k {
      MulMonoLeft(q, k + 1, d);
    }
  }

  /** A duty equal to the period at a period count of 65536 gives a duty
      count of 65536, whose low 16 bits are 0: the word stores 0 active
      cycles, as the code does with `dty & 0xffff`. */
  lemma FullDutyStoresNoActiveCycles()
    ensures Configure(327680000, 327680000) == Accepted(0, 0x1_0000, 0x1_0000)
    ensures PeriodWord(0x1_0000, 0x1_0000) == 0xFFFF_0000
    ensures PeriodWord(0x1_0000, 0x1_0000) % 0x1_0000 == 0
  {
    assert Counter(327680000, 0) == 0x1_0000;
    FitsRange(0x1_0000);
    DutyExact(0x1_0000, 327680000, 327680000);
    PeriodWordNoWrap(0x1_0000, 0x1_0000);
  }

  /** The shortest and the longest period any index accepts: 5000 ns at
      index 0 (a counter of 1) and 196807807807 ns at index 12 (a counter
      of 65536). */
  const SHORTEST: int := 5000
  const LONGEST: int := 196807807807

  /** Without wrap-around, a call is rejected exactly when the period is
      shorter than the shortest or longer than the longest period above. */
  lemma RejectedExactly(period: Word64, duty: Word64)
    requires period <= LONGEST_EXACT
    ensures Configure(period, duty).Rejected? <==> period < SHORTEST || period > LONGEST
  {
    if period < SHORTEST {
      ShortPeriodRejected(period, duty);
    } else if period > LONGEST {
      LongPeriodRejected(period, duty);
    } else {
      InRangeAccepted(period, duty);
    }
  }

  /** Below 5000 ns every counter is 0. */
  lemma ShortPeriodRejected(period: Word64, duty: Word64)
    requires period < SHORTEST
    ensures Configure(period, duty).Rejected?
  {
    forall i | 0 <= i < TRIED && TABLE[i] != 0
      ensures !Fits(Counter(period, i))
    {
      TooShortAt(period, i);
    }
  }

  lemma TooShortAt(period: Word64, i: nat)
    requires period < SHORTEST && i < TRIED && TABLE[i] != 0
    ensures !Fits(Counter(period, i))
  {
    CounterShrinksWithIndex(period, 0, i);
    CounterExact(period, 0);
    assert CLOCK / TABLE[0] == 200000;
    assert 200000 * period < NS;
    FitsRange(Counter(period, i));
  }

  /** Above 196807807807 ns every counter exceeds 65536. */
  lemma LongPeriodRejected(period: Word64, duty: Word64)
    requires LONGEST < period <= LONGEST_EXACT
    ensures Configure(period, duty).Rejected?
  {
    forall i | 0 <= i < TRIED && TABLE[i] != 0
      ensures !Fits(Counter(period, i))
    {
      TooLongAt(period, i);
    }
  }

  lemma TooLongAt(period: Word64, i: nat)
    requires LONGEST < period <= LONGEST_EXACT && i < TRIED && TABLE[i] != 0
    ensures !Fits(Counter(period, i))
  {
    CounterShrinksWithIndex(period, i, 12);
    CounterExact(period, 12);
    assert CLOCK / TABLE[12] == 333;
    assert 333 * period >= 0x1_0001 * NS;
    FitsRange(Counter(period, i));
  }

  /** In between, index 0, 8 or 12 fits. */
  lemma InRangeAccepted(period: Word64, duty: Word64)
    requires SHORTEST <= period <= LONGEST
    ensures Configure(period, duty).Accepted?
  {
    if period <= 327684999 {
      Index0Fits(period);
    } else if period <= 32768499999 {
      Index8Fits(period);
    } else {
      Index12Fits(period);
    }
  }

  /** Index 0 covers 5000 to 327684999 ns. */
  lemma Index0Fits(period: Word64)
    requires SHORTEST <= period <= 327684999
    ensures Fits(Counter(period, 0))
  {
    CounterExact(period, 0);
    assert CLOCK / TABLE[0] == 200000;
    assert NS <= 200000 * period < 0x1_0001 * NS;
    FitsRange(Counter(period, 0));
  }

  /** Index 8 covers 500000 to 32768499999 ns. */
  lemma Index8Fits(period: Word64)
    requires 500000 <= period <= 32768499999
    ensures Fits(Counter(period, 8))
  {
    CounterExact(period, 8);
    assert CLOCK / TABLE[8] == 2000;
    assert NS <= 2000 * period < 0x1_0001 * NS;
    FitsRange(Counter(period, 8));
  }

  /** Index 12 covers 3003004 to 196807807807 ns. */
  lemma Index12Fits(period: Word64)
    requires 3003004 <= period <= LONGEST
    ensures Fits(Counter(period, 12))
  {
    CounterExact(period, 12);
    assert CLOCK / TABLE[12] == 333;
    assert NS <= 333 * period < 0x1_0001 * NS;
    FitsRange(Counter(period, 12));
  }

  /* ---- The solver without wrap-around ---- */

  /** The counter the solver evidently means: the exact floor of
      `24000000 / table[i] * period_ns / 1000000000`, with no product
      wrapping. Up to the wrap bound it is the solver's counter. */
  function ExactCounter(period: Word64, i: nat): (c: Word64)
    requires i < |TABLE| && TABLE[i] != 0
    ensures period <= LONGEST_EXACT ==> c == Counter(period, i)
  {
    RateBounds(i);
    MulMonoLeft(200000, CLOCK / TABLE[i], period);
    DivMono((CLOCK / TABLE[i]) * period, 200000 * period);
    (CLOCK / TABLE[i]) * period / NS
  }

  /** The first index from `from` with a divisor whose exact counter fits. */
  function FirstExactFit(period: Word64, from: nat): (r: nat)
    requires from <= TRIED
    ensures from <= r <= TRIED
    ensures r < TRIED ==> TABLE[r] != 0 && Fits(ExactCounter(period, r))
    ensures forall j :: from <= j < r && TABLE[j] != 0 ==> !Fits(ExactCounter(period, j))
    decreases TRIED - from
  {
    if from == TRIED then TRIED
    else if TABLE[from] != 0 && Fits(ExactCounter(period, from)) then from
    else FirstExactFit(period, from + 1)
  }

  /** `sunxi_pwm_set_config` as it evidently means to behave: the same
      search and counts, on the exact counter. */
  function ConfigureExact(period: Word64, duty: Word64): (s: Setting)
    ensures s.Accepted? <==> exists i :: 0 <= i < TRIED && TABLE[i] != 0 && Fits(ExactCounter(period, i))
    ensures s.Accepted? ==> s.prescaler < TRIED && TABLE[s.prescaler] != 0
    ensures s.Accepted? ==> 1 <= s.prd <= 0x1_0000 && s.prd == ExactCounter(period, s.prescaler)
    ensures s.Accepted? ==> s.prescaler == FirstExactFit(period, 0)
  {
    var i := FirstExactFit(period, 0);
    if i == TRIED then Rejected
    else
      var c := ExactCounter(period, i);
      FitsRange(c);
      Accepted(i, c, DutyCount(c, duty, period))
  }

  /** Up to the wrap bound both searches end on the same index. */
  lemma {:induction false} FirstExactFitAgrees(period: Word64, from: nat)
    requires period <= LONGEST_EXACT && from <= TRIED
    ensures FirstExactFit(period, from) == FirstFit(period, from)
    decreases TRIED - from
  {
    if from < TRIED {
      FirstExactFitAgrees(period, from + 1);
    }
  }

  /** Up to the wrap bound the driver as written behaves as intended. */
  lemma ExactAgreesBelowWrap(period: Word64, duty: Word64)
    requires period <= LONGEST_EXACT
    ensures ConfigureExact(period, duty) == Configure(period, duty)
  {
    FirstExactFitAgrees(period, 0);
  }

  /** Without wrap-around a call is rejected exactly when the period is
      below 5000 ns or above 196807807807 ns, for every 64-bit period. */
  lemma ExactRejectedExactly(period: Word64, duty: Word64)
    ensures ConfigureExact(period, duty).Rejected? <==> period < SHORTEST || period > LONGEST
  {
    if period <= LONGEST_EXACT {
      ExactAgreesBelowWrap(period, duty);
      RejectedExactly(period, duty);
    } else {
      forall i | 0 <= i < TRIED && TABLE[i] != 0
        ensures !Fits(ExactCounter(period, i))
      {
        ExactTooLongAt(period, i);
      }
    }
  }

  /** Above the wrap bound every exact counter exceeds 65536. */
  lemma ExactTooLongAt(period: Word64, i: nat)
    requires LONGEST_EXACT < period && i < TRIED && TABLE[i] != 0
    ensures !Fits(ExactCounter(period, i))
  {
    RateBounds(i);
    MulMonoLeft(CLOCK / TABLE[i], 333, period);
    DivMono(333 * period, (CLOCK / TABLE[i]) * period);
    assert 333 * period >= 0x1_0001 * NS;
    FitsRange(ExactCounter(period, i));
  }

  /** The driver as written accepts a period of 92233720373548 ns, about
      25.6 hours and far above the longest period any index can express:
      at index 0 the product `200000 * period_ns` wraps, leaving a counter
      of 1. Without the wrap the call is rejected. */
  lemma WrapAcceptsLongPeriod()
    ensures 92233720373548 > LONGEST
    ensures Configure(92233720373548, 0) == Accepted(0, 1, 0)
    ensures ConfigureExact(92233720373548, 0).Rejected?
  {
    assert Counter(92233720373548, 0) == 1;
    FitsRange(1);
    assert DutyCount(1, 0, 92233720373548) == 0;
    ExactRejectedExactly(92233720373548, 0);
  }

  /* ---- The control word ---- */

  /** The masks below are the C macros for channels 0 and 1; a channel
      other than 0 stands for channel 1. */

  /** `SUNXI_PWM_EN(ch)`: bit 4 of the channel's 15-bit group. */
  function EnMask(ch: bv32): bv32
  {
    if ch == 0 then 0x10 else 0x8_0000
  }

  /** `SUNXI_PWM_ACT_STATE(ch)`: bit 5 of the group. */
  function ActMask(ch: bv32): bv32
  {
    if ch == 0 then 0x20 else 0x10_0000
  }

  /** `SUNXI_PWM_CLK_GATING(ch)`: bit 6 of the group. */
  function GateMask(ch: bv32): bv32
  {
    if ch == 0 then 0x40 else 0x20_0000
  }

  /** `SUNXI_PWM_PRESCALAR(ch, p)`: `p` in bits 0-3 of the group. */
  function PrescalerBits(ch: bv32, p: bv32): bv32
  {
    if ch == 0 then p else p << 15
  }

  /** `SUNXI_PWM_PRESCALAR(ch, 0x0F)` */
  function PrescalerMask(ch: bv32): bv32
  {
    PrescalerBits(ch, 0xF)
  }

  /** The channel's prescaler field as it reads back. */
  function PrescalerValue(ctrl: bv32, ch: bv32): bv32
  {
    if ch == 0 then ctrl & 0xF else (ctrl >> 15) & 0xF
  }

  /** The masks are the C macros, whose groups lie 15 bits apart. */
  lemma MasksAreMacros(ch: bv32, p: bv32)
    requires ch < 2
    ensures EnMask(ch) == (1 << 4) << (15 * ch)
    ensures ActMask(ch) == (1 << 5) << (15 * ch)
    ensures GateMask(ch) == (1 << 6) << (15 * ch)
    ensures PrescalerBits(ch, p) == p << (15 * ch)
  {
    if ch == 0 {
      assert 15 * ch == 0;
    } else {
      assert 15 * ch == 15;
    }
  }

  /** Each channel's bits are disjoint from each other and from the other
      channel's bits. */
  lemma MasksDisjoint(ch: bv32)
    requires ch < 2
    ensures EnMask(ch) & ActMask(ch) == 0 && EnMask(ch) & GateMask(ch) == 0
    ensures ActMask(ch) & GateMask(ch) == 0
    ensures PrescalerMask(ch) & (EnMask(ch) | ActMask(ch) | GateMask(ch)) == 0
    ensures ChannelMask(ch) & ChannelMask(1 - ch) == 0
    ensures EnMask(ch) | ActMask(ch) | GateMask(ch) | PrescalerMask(ch) == ChannelMask(ch)
  {
  }

  /** All bits of the channel's group that the driver touches. */
  function ChannelMask(ch: bv32): bv32
  {
    if ch == 0 then 0x7F else 0x3F_8000
  }

  /** The index of the channel's word in `ch_period`, and of the other
      channel's. */
  function Index(ch: bv32): int {
    if ch == 0 then 0 else 1
  }

  function OtherIndex(ch: bv32): int {
    if ch == 0 then 1 else 0
  }

  /** `ctrl` after `sunxi_pwm_set_polarity(ch, pol)`. */
  function PolarityWord(ctrl: bv32, ch: bv32, pol: bv32): bv32
  {
    if pol == POLARITY_NORMAL then ctrl | ActMask(ch) else ctrl & !ActMask(ch)
  }

  /** `ctrl` after `sunxi_pwm_enable(ch)`. */
  function EnableWord(ctrl: bv32, ch: bv32): bv32
  {
    ctrl | EnMask(ch) | GateMask(ch)
  }

  /** `ctrl` after `sunxi_pwm_disable(ch)`. */
  function DisableWord(ctrl: bv32, ch: bv32): bv32
  {
    ctrl & !EnMask(ch) & !GateMask(ch)
  }

  /** `ctrl` after `sunxi_pwm_set_config` chose prescaler `p`: save the
      clock gate, clear it, replace the prescaler field, and set the gate
      again if it was set. */
  function ConfigWord(ctrl: bv32, ch: bv32, p: bv32): bv32
  {
    var gate := ctrl & GateMask(ch);
    var cleared := ctrl & !GateMask(ch) & !PrescalerMask(ch);
    var updated := cleared | PrescalerBits(ch, p);
    if gate != 0 then updated | GateMask(ch) else updated
  }

  /** Normal polarity sets the active-state bit, any other value clears
      it, and no other bit changes. */
  lemma PolarityBits(ctrl: bv32, ch: bv32, pol: bv32)
    ensures PolarityWord(ctrl, ch, pol) & ActMask(ch) != 0 <==> pol == POLARITY_NORMAL
    ensures PolarityWord(ctrl, ch, pol) & !ActMask(ch) == ctrl & !ActMask(ch)
  {
  }

  /** Enabling sets the enable and clock-gate bits and nothing else. */
  lemma EnableBits(ctrl: bv32, ch: bv32)
    ensures EnableWord(ctrl, ch) & EnMask(ch) != 0 && EnableWord(ctrl, ch) & GateMask(ch) != 0
    ensures EnableWord(ctrl, ch) & !(EnMask(ch) | GateMask(ch)) == ctrl & !(EnMask(ch) | GateMask(ch))
  {
  }

  /** Disabling clears the enable and clock-gate bits and nothing else. */
  lemma DisableBits(ctrl: bv32, ch: bv32)
    ensures DisableWord(ctrl, ch) & (EnMask(ch) | GateMask(ch)) == 0
    ensures DisableWord(ctrl, ch) & !(EnMask(ch) | GateMask(ch)) == ctrl & !(EnMask(ch) | GateMask(ch))
  {
  }

  /** Disabling after enabling is the same as disabling, and enabling
      after disabling the same as enabling. */
  lemma EnableDisableUndo(ctrl: bv32, ch: bv32)
    ensures DisableWord(EnableWord(ctrl, ch), ch) == DisableWord(ctrl, ch)
    ensures EnableWord(DisableWord(ctrl, ch), ch) == EnableWord(ctrl, ch)
  {
  }

  /** A prescaler index below 16 lands in the channel's field; every other
      bit, the clock gate included, keeps its value. */
  lemma ConfigWordBits(ctrl: bv32, ch: bv32, p: bv32)
    requires p < 16
    ensures PrescalerValue(ConfigWord(ctrl, ch, p), ch) == p
    ensures ConfigWord(ctrl, ch, p) & !PrescalerMask(ch) == ctrl & !PrescalerMask(ch)
  {
    ConfigWordStores(ctrl, ch, p);
    ConfigWordKeeps(ctrl, ch, p);
  }

  lemma ConfigWordStores(ctrl: bv32, ch: bv32, p: bv32)
    requires p < 16
    ensures PrescalerValue(ConfigWord(ctrl, ch, p), ch) == p
  {
  }

  lemma ConfigWordKeeps(ctrl: bv32, ch: bv32, p: bv32)
    requires p < 16
    ensures ConfigWord(ctrl, ch, p) & !PrescalerMask(ch) == ctrl & !PrescalerMask(ch)
  {
  }

  /** The clock gate survives a configuration. */
  lemma ConfigKeepsGate(ctrl: bv32, ch: bv32, p: bv32)
    requires p < 16
    ensures ConfigWord(ctrl, ch, p) & GateMask(ch) == ctrl & GateMask(ch)
  {
  }


  /** For each page size of the ARM kernels, the mapping reaches past the
      last register of the block. */
  lemma WindowCoversRegisters(p: bv32)
    requires RegisterWindow.ArmPageSize(p)
    ensures RegisterWindow.Covers(RegisterWindow.BlockWindow(IO_BASE, REG_SIZE, p), REG_SIZE)
  {
    if p == 0x1000 {
      assert RegisterWindow.BlockWindow(IO_BASE, REG_SIZE, p) == RegisterWindow.Window(0x01c20000, 0xe00, 0x1000);
    } else if p == 0x4000 {
      assert RegisterWindow.BlockWindow(IO_BASE, REG_SIZE, p) == RegisterWindow.Window(0x01c20000, 0xe00, 0x4000);
    } else {
      assert RegisterWindow.BlockWindow(IO_BASE, REG_SIZE, p) == RegisterWindow.Window(0x01c20000, 0xe00, 0x1_0000);
    }
  }

  /** The PWM as the library sees it. `initialized` stands for the
      register pointer being non-NULL. */
  class Controller {
    var initialized: bool
    var window: RegisterWindow.Window
    /** `sunxi_pwm_registers->ctrl` */
    var ctrl: bv32
    /** `sunxi_pwm_registers->ch_period`, as unsigned 32-bit integers */
    const chPeriod: array<Word32>

    predicate Valid() {
      chPeriod.Length == 2
    }

    /** Before `sunxi_pwm_init`: the register pointer is NULL. */
    constructor ()
      ensures Valid() && !initialized
      ensures fresh(chPeriod)
    {
      initialized := false;
      window := RegisterWindow.Window(0, 0, 0);
      ctrl := 0;
      chPeriod := new Word32[2];
    }

    /** `sunxi_pwm_init`: map the pages holding the register block. */
    method Init(pageSize: bv32, access: RegisterWindow.Access) returns (status: int)
      requires RegisterWindow.IsPageSize(pageSize)
      modifies this
      ensures ctrl == old(ctrl)
      ensures access.Mapped? ==> status == 0 && initialized
      ensures access.Mapped? ==> window == RegisterWindow.BlockWindow(IO_BASE, REG_SIZE, pageSize)
      ensures !access.Mapped? ==> status == -(access.errno as int)
      ensures status == 0 <==> access.Mapped?
      ensures !access.Mapped? ==> initialized == old(initialized) && window == old(window)
    {
      if !access.Mapped? {
        return -(access.errno as int);
      }
      window := RegisterWindow.BlockWindow(IO_BASE, REG_SIZE, pageSize);
      initialized := true;
      status := 0;
    }

    /** `sunxi_pwm_set_polarity(ch, pol)` */
    method SetPolarity(ch: bv32, pol: bv32) returns (status: int)
      requires ch < 2
      modifies this`ctrl
      ensures !initialized ==> status == -Errno.EPERM && ctrl == old(ctrl)
      ensures initialized ==> status == 0 && ctrl == PolarityWord(old(ctrl), ch, pol)
    {
      if !initialized {
        return -Errno.EPERM;
      }
      if pol == POLARITY_NORMAL {
        ctrl := ctrl | ActMask(ch);
      } else {
        ctrl := ctrl & !ActMask(ch);
      }
      status := 0;
    }

    /** `sunxi_pwm_set_config(ch, period_ns, duty_ns)` */
    method SetConfig(ch: bv32, period: Word64, duty: Word64) returns (status: int)
      requires Valid() && ch < 2
      modifies this`ctrl, chPeriod
      ensures !initialized ==> status == -Errno.EPERM
      ensures initialized && Configure(period, duty).Rejected? ==> status == -Errno.EINVAL
      ensures !initialized || Configure(period, duty).Rejected? ==>
                ctrl == old(ctrl) && chPeriod[..] == old(chPeriod[..])
      ensures initialized && Configure(period, duty).Accepted? ==>
                var s := Configure(period, duty);
                status == 0
                && ctrl == ConfigWord(old(ctrl), ch, s.prescaler as bv32)
                && chPeriod[Index(ch)] == PeriodWord(s.prd, s.dty)
      ensures chPeriod[OtherIndex(ch)] == old(chPeriod[OtherIndex(ch)])
    {
      if !initialized {
        return -Errno.EPERM;
      }
      var setting := Compute(period, duty);
      if setting.Rejected? {
        return -Errno.EINVAL;
      }
      Store(ch, setting);
      status := 0;
    }

    /** The register writes of an accepted `sunxi_pwm_set_config`: the
        prescaler into `ctrl`, the two counts into the channel's period
        word. */
    method Store(ch: bv32, s: Setting)
      requires Valid() && ch < 2 && s.Accepted? && s.prescaler < TRIED
      modifies this`ctrl, chPeriod
      ensures ctrl == ConfigWord(old(ctrl), ch, s.prescaler as bv32)
      ensures chPeriod[Index(ch)] == PeriodWord(s.prd, s.dty)
      ensures chPeriod[OtherIndex(ch)] == old(chPeriod[OtherIndex(ch)])
    {
      ctrl := ConfigWord(ctrl, ch, s.prescaler as bv32);
      chPeriod[Index(ch)] := PeriodWord(s.prd, s.dty);
    }

    /** `sunxi_pwm_enable(ch)` */
    method Enable(ch: bv32) returns (status: int)
      requires ch < 2
      modifies this`ctrl
      ensures !initialized ==> status == -Errno.EPERM && ctrl == old(ctrl)
      ensures initialized ==> status == 0 && ctrl == EnableWord(old(ctrl), ch)
    {
      if !initialized {
        return -Errno.EPERM;
      }
      ctrl := EnableWord(ctrl, ch);
      status := 0;
    }

    /** `sunxi_pwm_disable(ch)` */
    method Disable(ch: bv32) returns (status: int)
      requires ch < 2
      modifies this`ctrl
      ensures !initialized ==> status == -Errno.EPERM && ctrl == old(ctrl)
      ensures initialized ==> status == 0 && ctrl == DisableWord(old(ctrl), ch)
    {
      if !initialized {
        return -Errno.EPERM;
      }
      ctrl := DisableWord(ctrl, ch);
      status := 0;
    }
  }

  /** A fresh controller, initialized and set to a 1 ms period at half
      duty on channel 0: the channel's period word reads 0x00C70064. */
  method HalfDutyScenario() returns (word: Word32)
    ensures word == 0x00C70064
  {
    var pwm := new Controller();
    var status := pwm.Init(0x1000, RegisterWindow.Mapped);
    HalfDutyAtOneKilohertz();
    status := pwm.SetConfig(0, 1000000, 500000);
    word := pwm.chPeriod[0];
  }
}
