/** ADC_DMA/ADC_DMA.c: sample sequencer 1 streams through uDMA channel
    `UDMA_CHANNEL_ADC1` into two 100-sample buffers in ping-pong mode.  Its
    handler only counts completed buffers and re-arms the stopped structure;
    it reads no interrupt status and converts nothing. */
module AdcDma {
  import opened Words
  import opened Registers
  import opened Udma

  const ADC_BUF_SIZE: nat := 100

  /** Ping-pong from sequencer 1's FIFO into a whole buffer. */
  const TRANSFER_A: Transfer := Transfer(PingPong, 1, BufA, ADC_BUF_SIZE)
  const TRANSFER_B: Transfer := Transfer(PingPong, 1, BufB, ADC_BUF_SIZE)

  /** The program's globals: the two completed-buffer counters, and the
      log of driver-library calls. */
  class Globals {
    var bufACount: U32
    var bufBCount: U32
    ghost var calls: seq<Call>
  }

  /** `DMA_Init`: the driver-library calls of steps 1-3 for sequencer 1's
      channel, then the transfers of step 4 and the channel enabled. */
  method DmaInit(g: Globals, ch: Channel)
    modifies g`calls, ch`primary, ch`alternate, ch`enabled
    ensures g.calls == old(g.calls) + SetUpCalls(1)
    ensures ch.primary == TRANSFER_A && ch.alternate == TRANSFER_B && ch.enabled
  {
    g.calls := g.calls + SetUpCalls(1);
    TransferSet(ch, false, TRANSFER_A);
    TransferSet(ch, true, TRANSFER_B);
    ChannelEnable(ch);
  }

  /** `ADC0_Handler`: each stopped structure is counted and re-armed with
      its own buffer, primary first.  A call with neither stopped changes
      nothing.  Afterwards neither structure is stopped and each still
      serves its own buffer, which keeps the ADC streaming. */
  method Adc0Handler(k: Globals, ch: Channel)
    modifies k`bufACount, k`bufBCount, ch`primary, ch`alternate, ch`enabled
    ensures k.bufACount == if old(ch.primary.mode) == Stop then Wrap(old(k.bufACount) + 1) else old(k.bufACount)
    ensures k.bufBCount == if old(ch.alternate.mode) == Stop then Wrap(old(k.bufBCount) + 1) else old(k.bufBCount)
    ensures ch.primary == if old(ch.primary.mode) == Stop then TRANSFER_A else old(ch.primary)
    ensures ch.alternate == if old(ch.alternate.mode) == Stop then TRANSFER_B else old(ch.alternate)
    ensures ch.enabled == (old(ch.enabled) || old(ch.primary.mode) == Stop || old(ch.alternate.mode) == Stop)
    ensures ch.primary.mode != Stop && ch.alternate.mode != Stop
    ensures Serves(old(ch.primary), TRANSFER_A) ==> Serves(ch.primary, TRANSFER_A)
    ensures Serves(old(ch.alternate), TRANSFER_B) ==> Serves(ch.alternate, TRANSFER_B)
  {
    if ch.primary.mode == Stop {
      k.bufACount := Wrap(k.bufACount + 1);
      TransferSet(ch, false, TRANSFER_A);
      ChannelEnable(ch);
    }
    if ch.alternate.mode == Stop {
      k.bufBCount := Wrap(k.bufBCount + 1);
      TransferSet(ch, true, TRANSFER_B);
      ChannelEnable(ch);
    }
  }
}
