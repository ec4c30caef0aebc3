/** ADC_DMA_2/ADC_DMA.c: sample sequencer 0 streams temperature-sensor
    samples through uDMA channel `UDMA_CHANNEL_ADC0` into two buffers in
    ping-pong mode.  The primary control structure fills buffer A, the
    alternate buffer B; each time one stops, the handler counts it,
    averages the buffer, converts the average to degrees, advances the LED
    counter and re-arms the structure with the same buffer. */
module AdcDmaPingPong {
  import opened Words
  import opened Registers
  import opened Temperature
  import opened Udma

  const ADC_BUF_SIZE: nat := 200

  /** The transfers `DMA_Init` sets and the handler re-arms: ping-pong from
      sequencer 0's FIFO into a whole buffer. */
  const TRANSFER_A: Transfer := Transfer(PingPong, 0, BufA, ADC_BUF_SIZE)
  const TRANSFER_B: Transfer := Transfer(PingPong, 0, BufB, ADC_BUF_SIZE)

  /** The program's globals. */
  class Globals {
    const bufA: array<U32>
    const bufB: array<U32>
    var bufACount: U32
    var bufBCount: U32
    var tempAvg: U32
    var tempC: U32
    var tempF: U32
    ghost var calls: seq<Call>
  }

  /** `DMA_Init`: the driver-library calls of steps 1-3 for sequencer 0's
      channel, then buffer A on the primary structure, buffer B on the
      alternate, and the channel enabled. */
  method DmaInit(g: Globals, ch: Channel)
    modifies g`calls, ch`primary, ch`alternate, ch`enabled
    ensures g.calls == old(g.calls) + SetUpCalls(0)
    ensures ch.primary == TRANSFER_A && ch.alternate == TRANSFER_B && ch.enabled
  {
    g.calls := g.calls + SetUpCalls(0);
    TransferSet(ch, false, TRANSFER_A);
    TransferSet(ch, true, TRANSFER_B);
    ChannelEnable(ch);
  }

  /** The two structures of the initialised channel alternate between the
      two distinct buffers, each for a whole buffer of samples. */
  lemma TransfersCoverBothBuffers()
    ensures TRANSFER_A.dest != TRANSFER_B.dest
    ensures TRANSFER_A.mode == TRANSFER_B.mode == PingPong
    ensures TRANSFER_A.size == TRANSFER_B.size == ADC_BUF_SIZE
  {
  }

  /** `sum / ADC_BUF_SIZE` for the `uint32_t` sum of a buffer. */
  function BufferMean(s: seq<U32>): U32
    requires |s| == ADC_BUF_SIZE
  {
    Wrap(Sum(s)) / ADC_BUF_SIZE
  }

  /** For 12-bit samples the sum of a buffer is at most 819000, so it does
      not wrap, and the mean is the floor of the true mean, at most 4095. */
  lemma BufferMeanOfSamples(s: seq<U32>)
    requires |s| == ADC_BUF_SIZE && forall i :: 0 <= i < |s| ==> Sample(s[i])
    ensures Sum(s) <= 819_000
    ensures BufferMean(s) * ADC_BUF_SIZE <= Sum(s) < (BufferMean(s) + 1) * ADC_BUF_SIZE
    ensures BufferMean(s) <= 4095
  {
    SumOfSamples(s);
  }

  /** The averaging loop of either branch.  The source accumulates in the
      global `ui32TempAvg`, whose intermediate values nothing reads. */
  method AverageOf(buf: array<U32>) returns (avg: U32)
    requires buf.Length == ADC_BUF_SIZE
    ensures avg == BufferMean(buf[..])
  {
    var sum: U32 := 0;
    var i := 0;
    while i < ADC_BUF_SIZE
      invariant 0 <= i <= ADC_BUF_SIZE
      invariant sum == Wrap(Sum(buf[..i]))
    {
      assert buf[..i + 1][..i] == buf[..i];
      WrapAdd(Sum(buf[..i]), buf[i]);
      sum := Wrap(sum + buf[i]);
      i := i + 1;
    }
    assert buf[..i] == buf[..];
    avg := sum / ADC_BUF_SIZE;
  }

  /** The body of either branch after the count: average, convert, and
      advance the LED. */
  method ProcessBuffer(g: Globals, buf: array<U32>, pn: GpioPort)
    requires buf.Length == ADC_BUF_SIZE
    modifies g`tempAvg, g`tempC, g`tempF, pn`data
    ensures g.tempAvg == BufferMean(buf[..]) && g.tempC == Celsius(g.tempAvg) && g.tempF == Fahrenheit(g.tempC)
    ensures pn.data == LedNext(old(pn.data))
  {
    g.tempAvg := AverageOf(buf);
    g.tempC := Celsius(g.tempAvg);
    g.tempF := Fahrenheit(g.tempC);
    pn.data := LedNext(pn.data);
  }

  /** The first branch of `ADC0_Handler`: if the primary structure has
      stopped, buffer A is complete. */
  method ServicePrimary(g: Globals, ch: Channel, pn: GpioPort)
    requires g.bufA.Length == ADC_BUF_SIZE
    modifies g`bufACount, g`tempAvg, g`tempC, g`tempF, ch`primary, ch`alternate, ch`enabled, pn`data
    ensures old(ch.primary.mode) != Stop ==> unchanged(g, ch, pn)
    ensures old(ch.primary.mode) == Stop ==>
      g.bufACount == Wrap(old(g.bufACount) + 1) && ch.primary == TRANSFER_A && ch.alternate == old(ch.alternate) &&
      ch.enabled && g.tempAvg == BufferMean(g.bufA[..]) && g.tempC == Celsius(g.tempAvg) &&
      g.tempF == Fahrenheit(g.tempC) && pn.data == LedNext(old(pn.data))
  {
    if ch.primary.mode == Stop {
      g.bufACount := Wrap(g.bufACount + 1);
      ProcessBuffer(g, g.bufA, pn);
      TransferSet(ch, false, TRANSFER_A);
      ChannelEnable(ch);
    }
  }

  /** The second branch: if the alternate structure has stopped, buffer B
      is complete. */
  method ServiceAlternate(g: Globals, ch: Channel, pn: GpioPort)
    requires g.bufB.Length == ADC_BUF_SIZE
    modifies g`bufBCount, g`tempAvg, g`tempC, g`tempF, ch`primary, ch`alternate, ch`enabled, pn`data
    ensures old(ch.alternate.mode) != Stop ==> unchanged(g, ch, pn)
    ensures old(ch.alternate.mode) == Stop ==>
      g.bufBCount == Wrap(old(g.bufBCount) + 1) && ch.alternate == TRANSFER_B && ch.primary == old(ch.primary) &&
      ch.enabled && g.tempAvg == BufferMean(g.bufB[..]) && g.tempC == Celsius(g.tempAvg) &&
      g.tempF == Fahrenheit(g.tempC) && pn.data == LedNext(old(pn.data))
  {
    if ch.alternate.mode == Stop {
      g.bufBCount := Wrap(g.bufBCount + 1);
      ProcessBuffer(g, g.bufB, pn);
      TransferSet(ch, true, TRANSFER_B);
      ChannelEnable(ch);
    }
  }

  /** `ADC0_Handler`: read and clear the interrupt status, then the two
      branches, each checked on its own, so one call can complete both
      buffers (B's results are then the ones left).  With neither structure
      stopped only the status is cleared.  The buffers are only read.
      Afterwards neither structure is stopped and each still serves its own
      buffer. */
  method Adc0Handler(g: Globals, ch: Channel, pn: GpioPort)
    requires g.bufA.Length == ADC_BUF_SIZE && g.bufB.Length == ADC_BUF_SIZE
    modifies g`bufACount, g`bufBCount, g`tempAvg, g`tempC, g`tempF, g`calls, ch`primary, ch`alternate, ch`enabled, pn`data
    ensures g.calls == old(g.calls) + [AdcIntStatus(0), AdcIntClear(0)]
    ensures g.bufACount == if old(ch.primary.mode) == Stop then Wrap(old(g.bufACount) + 1) else old(g.bufACount)
    ensures g.bufBCount == if old(ch.alternate.mode) == Stop then Wrap(old(g.bufBCount) + 1) else old(g.bufBCount)
    ensures ch.primary == if old(ch.primary.mode) == Stop then TRANSFER_A else old(ch.primary)
    ensures ch.alternate == if old(ch.alternate.mode) == Stop then TRANSFER_B else old(ch.alternate)
    ensures ch.enabled == (old(ch.enabled) || old(ch.primary.mode) == Stop || old(ch.alternate.mode) == Stop)
    ensures ch.primary.mode != Stop && ch.alternate.mode != Stop
    ensures Serves(old(ch.primary), TRANSFER_A) ==> Serves(ch.primary, TRANSFER_A)
    ensures Serves(old(ch.alternate), TRANSFER_B) ==> Serves(ch.alternate, TRANSFER_B)
    ensures pn.data == (if old(ch.primary.mode) == Stop && old(ch.alternate.mode) == Stop then LedNext(LedNext(old(pn.data)))
                        else if old(ch.primary.mode) == Stop || old(ch.alternate.mode) == Stop then LedNext(old(pn.data))
                        else old(pn.data))
    ensures old(ch.alternate.mode) == Stop ==> g.tempAvg == BufferMean(g.bufB[..])
    ensures old(ch.primary.mode) == Stop && old(ch.alternate.mode) != Stop ==> g.tempAvg == BufferMean(g.bufA[..])
    ensures old(ch.primary.mode) == Stop || old(ch.alternate.mode) == Stop ==>
      g.tempC == Celsius(g.tempAvg) && g.tempF == Fahrenheit(g.tempC)
    ensures old(ch.primary.mode) != Stop && old(ch.alternate.mode) != Stop ==>
      g.tempAvg == old(g.tempAvg) && g.tempC == old(g.tempC) && g.tempF == old(g.tempF)
    ensures unchanged(g.bufA, g.bufB)
  {
    g.calls := g.calls + [AdcIntStatus(0)];
    g.calls := g.calls + [AdcIntClear(0)];
    ServicePrimary(g, ch, pn);
    ServiceAlternate(g, ch, pn);
  }
}
