/** ADC_temperature.c: sample sequencer 1 takes four samples of the
    temperature sensor; its interrupt handler acknowledges the interrupt,
    starts the next sequence, reads the four results and converts their
    rounded mean to degrees Celsius and Fahrenheit, and advances the LED
    counter on port N.

    The driver-library calls are recorded in the ghost log `calls`, in
    order; `ADCSequenceDataGet` is modelled by its effect of copying the
    FIFO's four words, given as `fifo`, into `ui32ADC0Value`. */
module AdcTemperature {
  import opened Words
  import opened Registers
  import opened Temperature

  /** The program's globals. */
  class Readings {
    const adc0Value: array<U32>
    var tempAvg: U32
    var tempC: U32
    var tempF: U32
    ghost var calls: seq<Call>
  }

  /** `(v[0] + v[1] + v[2] + v[3] + 2)/4` with `uint32_t` additions
      (reducing the sum modulo 2^32 once is reducing it after every
      addition). */
  function RoundedMean(v: seq<U32>): U32
    requires |v| == 4
  {
    Wrap(v[0] as int + v[1] as int + v[2] as int + v[3] as int + 2) / 4
  }

  /** For four 12-bit samples the sum does not wrap and the result is their
      mean rounded to the nearest integer, halves upwards: a 12-bit value
      between the least and the greatest sample. */
  lemma RoundedMeanOfSamples(v: seq<U32>)
    requires |v| == 4 && forall i :: 0 <= i < 4 ==> Sample(v[i])
    ensures var sum: int := v[0] as int + v[1] as int + v[2] as int + v[3] as int;
      4 * RoundedMean(v) - 2 <= sum < 4 * RoundedMean(v) + 2
    ensures RoundedMean(v) <= 4095
    ensures forall i :: 0 <= i < 4 && (forall j :: 0 <= j < 4 ==> v[i] <= v[j]) ==> v[i] <= RoundedMean(v)
    ensures forall i :: 0 <= i < 4 && (forall j :: 0 <= j < 4 ==> v[j] <= v[i]) ==> RoundedMean(v) <= v[i]
  {
    assert Wrap(v[0] as int + v[1] as int + v[2] as int + v[3] as int + 2) == v[0] as int + v[1] as int + v[2] as int + v[3] as int + 2;
  }

  /** `ADCSequenceDataGet(ADC0_BASE, 1, ui32ADC0Value)`. */
  method SequenceDataGet(r: Readings, fifo: seq<U32>)
    requires r.adc0Value.Length == 4 && |fifo| == 4
    modifies r.adc0Value, r`calls
    ensures r.adc0Value[..] == fifo
    ensures r.calls == old(r.calls) + [AdcSequenceDataGet(1)]
  {
    r.adc0Value[0] := fifo[0];
    r.adc0Value[1] := fifo[1];
    r.adc0Value[2] := fifo[2];
    r.adc0Value[3] := fifo[3];
    r.calls := r.calls + [AdcSequenceDataGet(1)];
  }

  /** `ADC0_Handler`: clear, trigger the next sequence, and only then read
      the results; then the conversions and the LED. */
  method Adc0Handler(r: Readings, pn: GpioPort, fifo: seq<U32>)
    requires r.adc0Value.Length == 4 && |fifo| == 4
    modifies r.adc0Value, r`tempAvg, r`tempC, r`tempF, r`calls, pn`data
    ensures r.calls == old(r.calls) + [AdcIntClear(1), AdcProcessorTrigger(1), AdcSequenceDataGet(1)]
    ensures r.adc0Value[..] == fifo
    ensures r.tempAvg == RoundedMean(fifo) && r.tempC == Celsius(r.tempAvg) && r.tempF == Fahrenheit(r.tempC)
    ensures pn.data == LedNext(old(pn.data))
  {
    r.calls := r.calls + [AdcIntClear(1)];
    r.calls := r.calls + [AdcProcessorTrigger(1)];
    SequenceDataGet(r, fifo);
    r.tempAvg := RoundedMean(r.adc0Value[..]);
    r.tempC := Celsius(r.tempAvg);
    r.tempF := Fahrenheit(r.tempC);
    pn.data := LedNext(pn.data);
  }

  /** What the handler computes from four 12-bit samples: a 12-bit
      average, and, at 0 C or above, a Celsius value of at most 147 whose
      Fahrenheit value is 32 + floor(9C / 5). */
  lemma ReadingsOfSamples(v: seq<U32>)
    requires |v| == 4 && forall i :: 0 <= i < 4 ==> Sample(v[i])
    ensures RoundedMean(v) <= 4095
    ensures RoundedMean(v) <= 2442 ==>
      Celsius(RoundedMean(v)) <= 147 && Fahrenheit(Celsius(RoundedMean(v))) == 32 + 9 * Celsius(RoundedMean(v)) / 5
  {
    RoundedMeanOfSamples(v);
    var avg := RoundedMean(v);
    if avg <= 2442 {
      CelsiusWithoutWrap(avg);
      FahrenheitOfCelsius(Celsius(avg));
    }
  }
}
