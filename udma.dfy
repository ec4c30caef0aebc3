/** The part of the uDMA controller that the ADC_DMA programs drive
    through TI's driver library (whose code is not part of this model): a
    channel's primary and alternate control structures and its enable bit.
    `uDMAChannelTransferSet` writes one structure, `uDMAChannelModeGet`
    reads its mode, `uDMAChannelEnable` enables the channel.  The hardware
    itself moves a structure to `Stop` when its transfer completes; in the
    model a handler finds the modes in the fields. */
module Udma {
  import opened Registers

  /** `UDMA_MODE_STOP`, `_BASIC`, `_AUTO`, `_PINGPONG` (the scatter-gather
      modes are not used). */
  datatype Mode = Stop | Basic | Auto | PingPong

  /** The two receive buffers of a ping-pong transfer. */
  datatype Buffer = BufA | BufB

  /** A control structure: its mode, the sample sequencer whose FIFO
      (`ADC0_BASE + ADC_O_SSFIFOn`) it reads, the buffer it fills and the
      number of 32-bit items. */
  datatype Transfer = Transfer(mode: Mode, sequencer: nat, dest: Buffer, size: nat)

  /** One uDMA channel. */
  class Channel {
    var primary: Transfer
    var alternate: Transfer
    var enabled: bool
  }

  /** `t` is the transfer `armed`, running or completed by the hardware
      (which changes only the mode, to `Stop`). */
  predicate Serves(t: Transfer, armed: Transfer)
  {
    t == armed || t == armed.(mode := Stop)
  }

  /** The control word of both structures of an ADC channel: 32-bit items
      read from the FIFO register without incrementing the source and
      written to consecutive words, two items per arbitration. */
  const ADC_CONTROL: UdmaControl := UdmaControl(32, 0, 32, 2)

  /** Steps 1-3 of `DMA_Init` for the channel serving ADC sequencer
      `sequencer`: the uDMA clock and controller enabled and the control
      table's base set; the channel's ALTSELECT, HIGH_PRIORITY and REQMASK
      attributes cleared and USEBURST set; then `ADC_CONTROL` on the primary
      and on the alternate structure. */
  function SetUpCalls(sequencer: nat): seq<Call>
  {
    [ SysCtlPeripheralEnableUdma, UdmaEnable, UdmaControlBaseSet,
      UdmaChannelAttributeDisable(sequencer, {AltSelect, HighPriority, ReqMask}),
      UdmaChannelAttributeEnable(sequencer, {UseBurst}),
      UdmaChannelControlSet(sequencer, false, ADC_CONTROL),
      UdmaChannelControlSet(sequencer, true, ADC_CONTROL) ]
  }

  /** `uDMAChannelTransferSet(channel | UDMA_PRI_SELECT or UDMA_ALT_SELECT,
      ...)`: the selected structure only. */
  method TransferSet(ch: Channel, alternate: bool, t: Transfer)
    modifies ch`primary, ch`alternate
    ensures alternate ==> ch.alternate == t && ch.primary == old(ch.primary)
    ensures !alternate ==> ch.primary == t && ch.alternate == old(ch.alternate)
  {
    if alternate {
      ch.alternate := t;
    } else {
      ch.primary := t;
    }
  }

  /** `uDMAChannelEnable(channel)`. */
  method ChannelEnable(ch: Channel)
    modifies ch`enabled
    ensures ch.enabled
  {
    ch.enabled := true;
  }
}
