/** The integer conversions that ADC_temperature.c and the two ADC_DMA.c
    programs apply to the on-chip temperature sensor's 12-bit codes, in
    `uint32_t` arithmetic as written, and the LED counter their handlers
    advance.

    The sensor's transfer function is 147.5 - 247.5 * code / 4096 degrees
    Celsius; the sources compute it in tenths, then divide by 10.  Every
    intermediate value is an `uint32_t`, so a code above 2442 (a
    temperature below 0 C) makes `1475 - ...` wrap to a number near 2^32.
    `SignedCelsius` and `SignedFahrenheit` are the same formulas in signed
    arithmetic, with C's truncating division. */
module Temperature {
  import opened Words

  /** A 12-bit ADC code. */
  predicate Sample(v: int)
  {
    0 <= v <= 4095
  }

  /** `(1475 - ((2475 * avg)) / 4096)/10` with `uint32_t` operands. */
  function Celsius(avg: U32): U32
  {
    Wrap(1475 - Wrap(2475 * avg) / 4096) / 10
  }

  /** `((C * 9) + 160) / 5` with `uint32_t` operands. */
  function Fahrenheit(c: U32): U32
  {
    Wrap(Wrap(c * 9) + 160) / 5
  }

  lemma ScaledCodeBounds(avg: nat)
    requires avg <= 4095
    ensures 2475 * avg <= 10_135_125
    ensures avg <= 2442 ==> 2475 * avg / 4096 <= 1475
    ensures avg >= 2443 ==> 1476 <= 2475 * avg / 4096 <= 2474
  {
    if avg <= 2442 {
      assert 2475 * avg <= 2475 * 2442;
    }
    if avg >= 2443 {
      assert 2475 * avg >= 2475 * 2443;
    }
  }

  /** For codes up to 2442 nothing wraps: C is the formula over the
      integers, at most 147. */
  lemma CelsiusWithoutWrap(avg: U32)
    requires avg <= 2442
    ensures Celsius(avg) == (1475 - 2475 * avg / 4096) / 10
    ensures Celsius(avg) <= 147
  {
    ScaledCodeBounds(avg);
  }

  /** Over the same range a higher code never gives a higher temperature. */
  lemma CelsiusMonotone(a: U32, b: U32)
    requires a <= b <= 2442
    ensures Celsius(b) <= Celsius(a)
  {
    CelsiusWithoutWrap(a);
    CelsiusWithoutWrap(b);
    assert 2475 * a <= 2475 * b;
    assert 2475 * a / 4096 <= 2475 * b / 4096;
  }

  /** Every 12-bit code above 2442 (below 0 C) wraps: C comes out above
      429 million. */
  lemma CelsiusWrapsBelowZero(avg: U32)
    requires 2443 <= avg <= 4095
    ensures Celsius(avg) >= 429_496_629
  {
    ScaledCodeBounds(avg);
    var q := 2475 * avg / 4096;
    assert Wrap(2475 * avg) == 2475 * avg;
    assert Wrap(1475 - q) == WORD_MODULUS + 1475 - q;
  }

  /** The code 2443, one step below 0 C: the written formula gives
      429496729, the signed one 0. */
  lemma CelsiusAt2443()
    ensures Celsius(2443) == 429_496_729
    ensures SignedCelsius(2443) == 0
  {
  }

  /** The Celsius formula in signed arithmetic, dividing by 10 as C does
      (towards zero). */
  function SignedCelsius(avg: int): int
  {
    TruncDiv(1475 - 2475 * avg / 4096, 10)
  }

  /** `((C * 9) + 160) / 5` in signed arithmetic. */
  function SignedFahrenheit(c: int): int
  {
    TruncDiv(c * 9 + 160, 5)
  }

  /** The signed formula agrees with the written one wherever that one does
      not wrap, and stays between -99 and 147 over all 12-bit codes,
      falling as the code rises. */
  lemma SignedCelsiusCorrect(avg: int, avg': int)
    requires Sample(avg) && Sample(avg')
    ensures avg <= 2442 ==> SignedCelsius(avg) == Celsius(avg)
    ensures -99 <= SignedCelsius(avg) <= 147
    ensures avg <= avg' ==> SignedCelsius(avg') <= SignedCelsius(avg)
  {
    ScaledCodeBounds(avg);
    ScaledCodeBounds(avg');
    if avg <= 2442 {
      CelsiusWithoutWrap(avg);
    }
    if avg <= avg' {
      assert 2475 * avg <= 2475 * avg';
      assert 2475 * avg / 4096 <= 2475 * avg' / 4096;
      TruncDivMonotone(1475 - 2475 * avg' / 4096, 1475 - 2475 * avg / 4096, 10);
    }
  }

  /** For a Celsius value of the non-wrapping range F does not wrap either,
      and (9C + 160) / 5 is 32 + floor(9C / 5): the usual conversion. */
  lemma FahrenheitOfCelsius(c: U32)
    requires c <= 147
    ensures Fahrenheit(c) == 32 + 9 * c / 5
    ensures Fahrenheit(c) == SignedFahrenheit(c)
    ensures 32 <= Fahrenheit(c) <= 296
  {
    assert Wrap(c * 9) == c * 9;
    assert Wrap(c * 9 + 160) == c * 9 + 160;
  }

  /** The signed Fahrenheit formula is the conversion 9C/5 + 32 for
      negative temperatures too, less than a degree from the exact value:
      -40 C is -40 F. */
  lemma SignedFahrenheitOfCelsius(c: int)
    requires -99 <= c <= 147
    ensures -5 < 9 * c + 160 - 5 * SignedFahrenheit(c) < 5
    ensures SignedFahrenheit(-40) == -40
    ensures -146 <= SignedFahrenheit(c) <= 296
  {
  }

  /** `GPIO_PORTN_DATA_R = (++GPIO_PORTN_DATA_R)%4`, the incremented value
      reduced modulo 4 (the write of `++` is overwritten by the
      assignment). */
  function LedNext(data: Word): Word
  {
    (data + 1) % 4
  }

  /** The LED value is always 0..3, depends only on the low two bits, steps
      0, 1, 2, 3, 0 and comes back to itself after four steps. */
  lemma LedNextCycles(data: Word)
    ensures LedNext(data) < 4
    ensures LedNext(data) == LedNext(data % 4)
    ensures data < 4 ==> LedNext(data) == (if data == 3 then 0 else data + 1)
    ensures LedNext(LedNext(LedNext(LedNext(LedNext(data))))) == LedNext(data)
  {
  }

  /** The sum of a sequence of `uint32_t` values, over the integers. */
  function Sum(s: seq<U32>): nat
  {
    if |s| == 0 then 0 else Sum(s[..|s| - 1]) + s[|s| - 1]
  }

  /** Samples of at most 4095 sum to at most 4095 per sample. */
  lemma {:induction false} SumOfSamples(s: seq<U32>)
    requires forall i :: 0 <= i < |s| ==> Sample(s[i])
    ensures Sum(s) <= 4095 * |s|
  {
    if |s| > 0 {
      SumOfSamples(s[..|s| - 1]);
    }
  }
}
